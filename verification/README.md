# A Dafny model of aiomisc's concurrency protocols

aiomisc is a toolkit for asyncio programs. Its hard parts are small protocols: code that is correct only
because of what may and may not happen between two `await`s. This project models eight of them and proves
what they promise, over every run:

- the batching aggregator (`AggregateProtocol`, `AggregateProofs`, `Aggregator`): batching is
  indistinguishable from calling the function pointwise;
- the circuit breaker (`BreakerWindow`, `BreakerProtocol`, `BreakerProofs`, `CircuitBreaker`): legal edges,
  dwell times, and a bounded window that stands for the whole history;
- service startup (`EntrypointProtocol`, `EntrypointProofs`, `EntrypointFates`, `Entrypoint`): a join that
  survives repeated cancellation and the failure of a peer;
- the DNS zone index (`DnsNames`, `DnsTree`, `DnsZone`, `DnsStore`): a heap-allocated trie against a flat
  map, and the nearest enclosing zone of section 4.3.2 of RFC 1034;
- the thread pool (`ThreadPoolProtocol`, `ThreadPoolProofs`, `ThreadPoolFates`, `ThreadPoolRuns`,
  `ThreadPool`): growth, the close sentinel, tasks that are run at most once, and futures that are written at
  most once, with the exact condition for shutdown to resolve them all;
- the connection pool (`PoolProtocol`, `PoolProofs`, `Pool`): permits are conserved and instances have one
  holder;
- worker IPC (`WorkerFraming`, `WorkerProtocol`, `WorkerProofs`, `WorkerPool`): framing round trip and reply
  routing;
- the retry loop (`Backoff`).

## How to read it

A `...Protocol` file holds a state, the events that can happen, `Enabled`, `Apply` and the invariant `Inv`.
One event is the code of one coroutine (or, in the thread pool, one thread) between two points at which
others can run. Cancellation, timeouts, lock grants, clock readings, random draws and what foreign functions
do are events or parameters of events, so a theorem over all event sequences is a theorem over all
interleavings. A `...Proofs` file holds the theorems, with more
of them in the `...Fates` and `...Runs` files. The file with the class holds the imperative form: each
method updates fields in place like the source does and is proved equal to the step it stands for
(`View() == Apply(old(View()), event)`), so the theorems about runs apply to it. In the
connection pool, what only the coroutines know is ghost; in the worker pool, a task's two futures are read as
the one fate it has in the protocol.

Times and ratios are reals. `dafny verify dfyconfig.toml` checks everything.

## Where the code differs from what is said about it

- `aiomisc/circuit_breaker.py:139` tests `0.0 > error_ratio >= 1.0`, which no number satisfies;
  `CircuitBreaker.Make` therefore rejects only a response time that is not positive.
- The docstring of the circuit breaker gives 20% as the share of failures that ends a recovery; the code
  compares with half of `error_ratio`, and the model follows the code. RECOVERING can turn into BROKEN at any
  moment, so `recovery_time` is a minimum only on the way to PASSING.
- `DNSStore.query` takes the deepest path of the trie, not the deepest zone. It finds the nearest enclosing
  zone exactly if the longest part of the name shared with any key ever inserted is a zone itself, or if no
  zone encloses the name (`QueryFindsNearestIff`); `ShadowedZone` shows a miss. The root zone is stored under
  the one-label key `("",)` and so never answers for other names (`RootAnswersNobodyElse`, `RootZoneMissed`).
- When `_check_instance` raises, `PoolBase` recycles the instance and then hands it out
  (`aiomisc/pool.py:151-159`). Live instances are conserved exactly on the runs in which as many checks raised
  as were cancelled (`LiveInstancesConservedIff`), and nobody holds a recycled instance exactly if no check
  raises (`HealthyIffNoCheckRaises`).
- `shutdown` of the thread pool tests a future and rejects it in two steps, while the loop and the threads
  write to the same futures, and it writes to futures of a loop that may be closed. It rejects everything
  exactly if nothing disturbs it (`ShutdownCompletesIff`); otherwise it raises, and futures it had not popped
  can stay pending for ever: `RaceStrandsATask` and `ClosedLoopStrandsATask` give such runs from the start.
- A cancel signal that reaches a worker just after it has sent its reply produces a second reply. A step
  keeps the routing invariant exactly if it is not such a signal on a connection that is still served
  (`StepOkIff`); `MisroutesFromTheStart` gives a run in which the next task gets the wrong reply.

## Model

| member | source | states |
|---|---|---|
| `AggregateProofs.StepOk` | aiomisc/aggregate.py:89-181 | Every arrival, wake-up, timeout, lock grant, return, failure and cancellation keeps: one open batch, sealed batches full or overdue and within `max_count`, arguments matched with futures, one execution per batch at a time, at most one not cancelled, and nobody suspended in the final `await future` |
| `AggregateProofs.EveryRunKeepsInv` | aiomisc/aggregate.py:89-181 | The same at every state of every run |
| `AggregateProofs.EveryRunIsLater` | aiomisc/aggregate.py:139-181 | A sealed batch never grows, the time of a batch's first call and a done future never change, calls are only added, an ended caller stays ended |
| `AggregateProofs.Arrival` | aiomisc/aggregate.py:139-155 | An arrival is the last member of the open batch; the first member starts the leeway, later ones do not touch it; the one that fills the batch seals it and does not wait |
| `AggregateProofs.LeewayBeginsWithTheFirstCall` | aiomisc/aggregate.py:140-161 | Over every run from a batch's first call, whatever arrives meanwhile, a waiting member can time out exactly once the leeway since that call is over, and can wake up exactly if the batch is full |
| `AggregateProofs.EveryRunExplained` | aiomisc/aggregate.py:114-137 | With the wrapper, a batch's futures are all pending until its one uninterrupted call ends, and then exactly what that call says by index, also if it raised after some of its results |
| `AggregateProofs.CallerGetsItsOwnEntry` | aiomisc/aggregate.py:139-181 | A caller that ends got entry i of the one uninterrupted call on its own batch, in which its argument is at position i |
| `AggregateProofs.BatchingRefinesPointwise` | aiomisc/aggregate.py:203-208 | If the function maps `f` over its arguments, `aggregate(x)` yields `f(x)`, or the error of its batch's call exactly if that raised before it had yielded the caller's result |
| `AggregateProofs.ProgressIsBounded` | aiomisc/aggregate.py:139-181 | Each arrival pays for at most three later steps, retries after cancelled executions included |
| `AggregateProofs.NobodyIsStuck` | aiomisc/aggregate.py:155-181 | While a caller has not ended, letting time pass enables a step of some caller of the same batch |
| `AggregateProofs.EveryoneCanEnd` | aiomisc/aggregate.py:139-181 | From every invariant state a run without arrivals and cancellations brings every caller to its end |
| `Aggregator.Make` | aiomisc/aggregate.py:62-87 | An aggregator exists exactly for a variadic function, positive leeway and positive or absent `max_count`, and has that leeway in seconds and that count; the signature is checked first, then the count |
| `Aggregator.AggregatorAsync.Join` | aiomisc/aggregate.py:139-161 | The section of `aggregate` up to its first suspension is the arrival step and keeps the invariant |
| `Aggregator.AggregatorAsync.AfterWait` | aiomisc/aggregate.py:157-174 | Event or timeout: the batch is sealed once, by whoever comes first |
| `Aggregator.AggregatorAsync.EnterLock` | aiomisc/aggregate.py:176-179 | The holder of the lock skips execution if its own future is done |
| `Aggregator.AggregatorAsync.SetResults` | aiomisc/aggregate.py:203-208 | The zip loop sets exactly the pending futures that have a result |
| `Aggregator.AggregatorAsync.FailPending` | aiomisc/aggregate.py:127-137 | Exactly the pending futures get the failure |
| `Aggregator.AggregatorAsync.FunctionReturned` | aiomisc/aggregate.py:108-130 | After a return every future is done, those without a result with ResultNotSet |
| `Aggregator.AggregatorAsync.FunctionRaised` | aiomisc/aggregate.py:108-137 | After an exception, also one from iterating over the results, the results yielded before it are set and every other pending future carries it |
| `Aggregator.AggregatorAsync.CancelCaller` | aiomisc/aggregate.py:114-130 | A cancelled executor leaves the futures pending and gives up the lock for another member |
| `BreakerWindow.BucketMonotone` | aiomisc/circuit_breaker.py:173-175 | With a clock that does not go back, bucket keys do not go back |
| `BreakerWindow.BucketInterval` | aiomisc/circuit_breaker.py:173-175 | The key is a rounded multiple of `response_time`, at most ten times the moment and less than one `response_time` and the rounding before it |
| `BreakerWindow.WindowInTime` | aiomisc/circuit_breaker.py:196-208 | A bucket entered less than nine tenths of a `response_time` ago is in the window, one entered more than eleven tenths ago is not, up to the rounding |
| `BreakerWindow.WindowIsSuffix` | aiomisc/circuit_breaker.py:196-208 | In a deque with increasing keys the in-window buckets are a suffix, so an early `break` loses none |
| `BreakerWindow.WindowOfNewest` | aiomisc/circuit_breaker.py:177-208 | The bounded deque shows the newest ten in-window buckets of the unbounded history |
| `BreakerWindow.WindowHoldsAtMostEleven` | aiomisc/circuit_breaker.py:173-208 | At most eleven buckets of any history lie in one window, for every positive response time |
| `BreakerProofs.BoundedWindowRefinesHistory` | aiomisc/circuit_breaker.py:173-208 | At every state of every run the window is the newest ten in-window buckets since the last clear, and at most one is missing |
| `BreakerProofs.EveryRunKeepsInv` | aiomisc/circuit_breaker.py:227-342 | Keys increase, OK + FAIL <= TOTAL in each counter, each admitted call is in flight or counted once, and the call counters add up |
| `BreakerProofs.RatioIsAShare` | aiomisc/circuit_breaker.py:256-275 | The ratio is the number of failing buckets among those in the window divided by their number; it is in [0,1], and 1 exactly if the window is not empty and wholly failing |
| `BreakerProofs.PhaseEdges` | aiomisc/circuit_breaker.py:277-320 | Every edge with its exact condition and no other edge, what each sets, and that nothing changes without an edge; a trip from PASSING needs ten retained buckets and a wholly failing window |
| `BreakerProofs.TripNeedsFailuresInTheCurrentBucket` | aiomisc/circuit_breaker.py:277-303 | Whatever the clock readings, a call that trips out of PASSING found ten retained buckets, its own the newest and in the window, and every in-window bucket with a completed call and failures at the threshold |
| `BreakerProofs.CountersCount` | aiomisc/circuit_breaker.py:227-239 | Over every run a Counter's FAIL, OK and TOTAL are the numbers of its calls that failed, succeeded and ended, counted on the events |
| `BreakerProofs.EntersItsOwnBucket` | aiomisc/circuit_breaker.py:322-330 | An admitted call writes to the Counter of the bucket of its entry, which no other bucket has |
| `BreakerProofs.TripsIffCallsFailed` | aiomisc/circuit_breaker.py:277-303 | Over every run from the start a call trips PASSING exactly if its time is over, ten buckets are retained, and of every bucket in the non-empty window calls have ended, a share of at least `error_ratio` as failures |
| `BreakerProofs.StatisticsCount` | aiomisc/circuit_breaker.py:322-340 | Over every run each call counter is the number of calls dispatched in its phase, admitted and refused ones apart; PASSING admits all, BROKEN none |
| `BreakerProofs.TripKeepsCallsAway` | aiomisc/circuit_breaker.py:277-342 | Over every run after a trip no call is admitted within `broken_time`, and PASSING comes no earlier than `broken_time + recovery_time` |
| `BreakerProofs.RecoveredPassingLasts` | aiomisc/circuit_breaker.py:305-320 | A PASSING reached by recovery lasts `passing_time` over every run |
| `BreakerProofs.RecoveringIsYoung` | aiomisc/circuit_breaker.py:241-254 | A call dispatched in RECOVERING has recovered for less than `recovery_time`; with one reading its exponent is in [0,1) |
| `BreakerProofs.AdmissionGrows` | aiomisc/circuit_breaker.py:241-254 | Nothing is admitted at `recovery_at`, everything after `recovery_time`, and admission is monotone in time for each draw |
| `BreakerProofs.AdmittedShare` | aiomisc/circuit_breaker.py:241-254 | At the fraction x of the recovery the draws admitted are those below `2 ** x - 1` |
| `CircuitBreaker.Make` | aiomisc/circuit_breaker.py:136-160 | Rejected exactly if `response_time` is not positive; a missing or zero duration becomes `response_time` |
| `CircuitBreaker.Walk` | aiomisc/circuit_breaker.py:196-208 | The newest-first walk with its early `break` counts exactly the in-window and the failing buckets |
| `CircuitBreaker.Breaking.CurrentCounter` | aiomisc/circuit_breaker.py:177-194 | The counter of the current bucket, made if it is new, the oldest of ten dropped |
| `CircuitBreaker.Breaking.RecoveryRatio` | aiomisc/circuit_breaker.py:256-275 | The loop computes the share of failing buckets in the window |
| `CircuitBreaker.Breaking.ComputeState` | aiomisc/circuit_breaker.py:277-320 | The fields afterwards are those of the computed phase |
| `CircuitBreaker.Breaking.EnterContext` | aiomisc/circuit_breaker.py:322-342 | Entering is the entry step, keeps the invariant, and yields that step's verdict |
| `CircuitBreaker.Breaking.LeaveContext` | aiomisc/circuit_breaker.py:227-239 | The outcome goes to the counter handed out on entry, even if it has left the window |
| `EntrypointProofs.StepOk` | aiomisc/entrypoint.py:326-382 | Every step of startup tasks, services, `gather` callbacks and cancellations keeps the join invariant |
| `EntrypointProofs.EveryRunKeepsInv` | aiomisc/entrypoint.py:326-382 | The same at every state of every run, for any number of services |
| `EntrypointProofs.JoinedAtPostStart` | aiomisc/entrypoint.py:369-382 | When POST_START may run every startup task is finished, no readiness waiter runs, and a start task that still runs was registered after readiness |
| `EntrypointProofs.WhatPropagates` | aiomisc/entrypoint.py:363-382 | What is raised is a POST_START receiver's exception, else one that a service raised without being told to stop, else a CancelledError after a cancellation from outside; nothing only if all startups returned and no receiver raised |
| `EntrypointProofs.FailureIsFinal` | aiomisc/entrypoint.py:371-382 | Once the group has failed, no cancellation or failure replaces the exception caught first, and no start task is registered any more |
| `EntrypointProofs.EveryRunIsOnward` | aiomisc/entrypoint.py:349-359 | However often a startup is cancelled while it joins its tasks, it ends with the exception it first caught |
| `EntrypointProofs.EveryRunIsShort` | aiomisc/entrypoint.py:326-382 | A startup of n services takes at most 10 n + 4 steps plus n + 2 for each cancellation |
| `EntrypointProofs.NobodyIsStuck` | aiomisc/entrypoint.py:354-358 | Until startup is over some step is possible, and it waits for no registered service and, after a failure, only for start tasks already cancelled |
| `EntrypointProofs.StartupCanEnd` | aiomisc/entrypoint.py:326-382 | From every reachable state a run without further cancellations brings `start_services` to its end |
| `EntrypointFates.CancelReachesEveryStartup` | aiomisc/entrypoint.py:369-370 | Cancelled while startups are under way, `start_services` takes all of them along: over every continuation none is registered any more and each ends with an exception if it ends |
| `EntrypointFates.CancelledGroupRaises` | aiomisc/entrypoint.py:369-380 | Cancelled while it gathers, `start_services` never ends without an exception |
| `EntrypointFates.FirstFailureWins` | aiomisc/entrypoint.py:369-380 | The exception of the first startup that `gather` finds failed is the group's, whatever the others do later, unless the group is cancelled first |
| `EntrypointFates.EarlyFailureIsKept` | aiomisc/entrypoint.py:326-331 | A service that raises before its tasks exist ends its startup with that exception, over every continuation |
| `EntrypointFates.ReceiversReplaceIt` | aiomisc/entrypoint.py:381-382 | Over every run from the start, what leaves `start_services` is what the POST_START event of the run raised, else the group's exception |
| `Entrypoints.Entrypoint.BeginService` | aiomisc/entrypoint.py:326-338 | A startup cancelled before its first step owns nothing; otherwise the service is listed with both its tasks |
| `Entrypoints.Entrypoint.ServiceWakes` | aiomisc/entrypoint.py:336-361 | Each continuation of `_start_service` is its step; the start task is registered only after readiness |
| `Entrypoints.Entrypoint.CancelTasks` | aiomisc/utils.py:318-341 | The loop cancels exactly the unfinished startup tasks and returns them for the join |
| `Entrypoints.Entrypoint.GroupWakes` | aiomisc/entrypoint.py:369-382 | Success, failure and the join loop that swallows cancellations |
| `Entrypoints.Entrypoint.CancelStartServices` | aiomisc/entrypoint.py:369-379 | A cancellation is passed on through `gather` while it waits, and only remembered afterwards |
| `DnsNames.JoinSplit` | aiomisc/service/dns/store.py:47-49 | Joining the labels of a name gives the name back |
| `DnsNames.PrefixMeansSuffix` | aiomisc/service/dns/store.py:47-49 | One reversed tuple is a prefix of another exactly if the name ends with the zone at a label boundary |
| `DnsNames.SameTuple` | aiomisc/service/dns/store.py:47-49 | Names share a tuple exactly if they are equal without their outer dots |
| `DnsNames.TupleOfDotted` | aiomisc/service/dns/store.py:33-49 | The dot that `query` adds does not change the tuple |
| `DnsNames.DottedOnce` | aiomisc/service/dns/store.py:33-35 | A name that ends with a dot is left alone, any other gets exactly one |
| `DnsTree.RadixTree.Descend` | aiomisc/service/dns/tree.py:24-29 | The walk of `insert` adds exactly the missing prefixes of the key, changes no value, and the heap stays a tree |
| `DnsTree.RadixTree.Insert` | aiomisc/service/dns/tree.py:24-30 | The flat map changes at the key alone, for values and for `None`, and the heap stays a tree |
| `DnsTree.RadixTree.Search` | aiomisc/service/dns/tree.py:32-38 | The flat map's value at the key |
| `DnsTree.RadixTree.Follow` | aiomisc/service/dns/tree.py:40-54 | The loop stops at the longest prefix that is a path, with the value of the longest prefix up to there that holds one |
| `DnsTree.RadixTree.FindPrefix` | aiomisc/service/dns/tree.py:40-59 | The longest prefix that is a path, with the value of the longest prefix that holds one; nothing exactly if no prefix does |
| `DnsZone.RemoveUndoesAdd` | aiomisc/service/dns/zone.py:24-37 | Removing a record just added restores the zone |
| `DnsZone.AddedAllHolds` | aiomisc/service/dns/zone.py:15-29 | A zone built from a list holds exactly the listed records, up to ttl |
| `DnsZone.AddedExactly` | aiomisc/service/dns/zone.py:24-29 | Adding a record puts in that record, if none with its name, type, data and class is there, and changes nothing else |
| `DnsZone.RemovedExactly` | aiomisc/service/dns/zone.py:31-37 | Removing takes out the records with that name, type, data and class, whatever the ttl, and nothing else |
| `DnsZone.DNSZone.AddRecord` | aiomisc/service/dns/zone.py:24-29 | Refused exactly if the record's name does not end with the zone's; an equal record is kept |
| `DnsZone.DNSZone.RemoveRecord` | aiomisc/service/dns/zone.py:31-37 | The equal record goes, and no empty set stays behind |
| `DnsZone.DNSZone.GetRecords` | aiomisc/service/dns/zone.py:39-44 | The records stored under the dotted name and type, each with that name and type and inside the zone |
| `DnsZone.BuildRecords` | aiomisc/service/dns/zone.py:57-65 | The loop yields a dictionary exactly if every record belongs to the zone, and then it is the list added in order, filed under name and type, without duplicates |
| `DnsZone.DNSZone.Replace` | aiomisc/service/dns/zone.py:49-65 | All records are replaced, or none if one does not belong to the zone |
| `DnsStore.EnclosesMeansPrefix` | aiomisc/service/dns/store.py:42-49 | A zone's tuple is a prefix of a name's tuple exactly if it encloses the name, except that the root has a tuple of its own |
| `DnsStore.DNSStore.AddZone` | aiomisc/service/dns/store.py:16-20 | Refused exactly if a zone has that tuple; else only that key changes |
| `DnsStore.DNSStore.RemoveZone` | aiomisc/service/dns/store.py:22-27 | Refused exactly if no zone has that tuple; else only that key is cleared |
| `DnsStore.DNSStore.GetZone` | aiomisc/service/dns/store.py:29-31 | The zone filed under the name's tuple |
| `DnsStore.DNSStore.Query` | aiomisc/service/dns/store.py:33-45 | The records of the zone at the deepest path; those of the nearest enclosing zone wherever that node holds a zone, and none if no zone encloses the name |
| `DnsStore.DNSStore.DeepestValueIsNearest` | aiomisc/service/dns/store.py:33-45 | The deepest value along the tuple is the one stored zone that encloses the name with the longest name |
| `DnsStore.DNSStore.QueryFindsNearestIff` | aiomisc/service/dns/store.py:33-45 | A zone that is consulted is always the nearest; the nearest is consulted exactly if the longest path shared with a key ever inserted is a zone, or no zone encloses the name |
| `DnsStore.ShadowedZone` | aiomisc/service/dns/store.py:33-45 | For all labels with x other than a: with the zones com, holding a record of x.b.com, and a.b.com, `query` of x.b.com is empty, although com is the nearest enclosing zone and has the answer |
| `DnsStore.DNSStore.RootAnswersNobodyElse` | aiomisc/service/dns/store.py:33-49 | The zone that `query` consults for a name other than the root is never the root zone |
| `DnsStore.RootZoneMissed` | aiomisc/service/dns/store.py:33-49 | With the root zone alone, which is then nearest for every name and holds its record, `query` of any other name is empty |
| `DnsStore.BuildTree` | aiomisc/service/dns/store.py:62-65 | The loop yields a tree with a fresh zone for every entry, the last one winning a shared tuple |
| `DnsStore.DNSStore.Replace` | aiomisc/service/dns/store.py:51-66 | All zones are the given ones, or nothing changes if some record does not belong to its zone |
| `ThreadPoolProofs.SubmittedOk` | aiomisc/thread_pool.py:213-246 | After a submission tracked futures are at most the pool size, or the pool is at its limit |
| `ThreadPoolProofs.EveryRunKeepsInv` | aiomisc/thread_pool.py:120-157 | Over every interleaving: pool size within `max_workers`, exactly one sentinel queued or in a hand once put, at most one item per thread after the flag, success + error = done at item boundaries |
| `ThreadPoolProofs.EveryRunResolvesOnce` | aiomisc/thread_pool.py:61-113 | With tests and writes as separate steps of racing threads: an outcome never changes, and exactly one write takes effect on a future that ends resolved, none on one that does not |
| `ThreadPoolFates.OutcomesAreEarned` | aiomisc/thread_pool.py:61-113 | Over every run from the start a future has a result only if its own function returned, the function's exception only if it raised, and is rejected, failed or cancelled only by a step about this future |
| `ThreadPoolFates.RunsAtMostOnce` | aiomisc/thread_pool.py:73-96 | Over every run from the start no task's function is run twice |
| `ThreadPoolFates.NoTaskIsLost` | aiomisc/thread_pool.py:73-113 | As long as the loop is open every pending task is queued, with a thread, or has its outcome on the way |
| `ThreadPoolFates.TakenInOrder` | aiomisc/thread_pool.py:234-243 | Tasks are taken in the order of their submission |
| `ThreadPoolFates.RunningWasTested` | aiomisc/thread_pool.py:75-88 | A function is only run if its thread found the future not done and after that the loop open |
| `ThreadPoolFates.ClosedChannelGivesNothing` | aiomisc/thread_pool.py:127-135 | A thread that asks a closed channel for an item leaves without one, over every run |
| `ThreadPoolFates.StatisticsCount` | aiomisc/thread_pool.py:87-96 | Success and error are the functions that returned and raised, done and submitted the tasks counted so |
| `ThreadPoolProofs.ShutdownCompletesIff` | aiomisc/thread_pool.py:257-269 | An ended shutdown came to its regular end exactly if no other writer came between a test and its rejection, the loop was not closed when a pending future was rejected, and the last future was not discarded between the loop's test and its pop; then every future submitted is resolved, and otherwise only futures not yet popped are pending |
| `ThreadPoolProofs.ShutdownEnds` | aiomisc/thread_pool.py:265-269 | Whatever the others do, the rejection loop takes a bounded number of steps and can always take the next one until it ends |
| `ThreadPoolRuns.RaceAbortsShutdown` | aiomisc/thread_pool.py:64-70 | From every state with two pending futures and the result of one on its way, the loop can set it between test and rejection: shutdown raises and the other future stays pending |
| `ThreadPoolRuns.ClosedLoopAbortsShutdown` | aiomisc/thread_pool.py:231-232 | From every state with two pending futures a closed loop makes shutdown raise at the first, and the other stays pending |
| `ThreadPoolRuns.DiscardAbortsShutdown` | aiomisc/thread_pool.py:265-266 | From every state whose one tracked future is done, discarding it between the test of the set and the pop makes shutdown raise KeyError, with every future resolved |
| `ThreadPoolRuns.PendingForEver` | aiomisc/thread_pool.py:248-269 | After shutdown raised, with the threads gone and no result on its way, a pending future stays pending over every run in which its caller does not cancel it |
| `ThreadPoolRuns.RaceStrandsATask` | aiomisc/thread_pool.py:265-269 | From the start of a pool of one thread: two submissions, a lost race, and a future that no continuation resolves unless its caller cancels it |
| `ThreadPoolRuns.ClosedLoopStrandsATask` | aiomisc/thread_pool.py:265-269 | The same from the start with a loop closed before shutdown |
| `ThreadPoolRuns.DiscardFromTheStart` | aiomisc/thread_pool.py:265-266 | From the start, a cancelled task discarded just before the pop ends shutdown with KeyError |
| `ThreadPoolProofs.ThreadsRunOut` | aiomisc/thread_pool.py:142-157 | After the flag the threads together take a bounded number of steps |
| `ThreadPoolProofs.NoThreadBlocksForEver` | aiomisc/thread_pool.py:127-135 | After the sentinel was put every thread can move, or another is about to hand it the sentinel |
| `ThreadPoolProofs.ThreadsCanExit` | aiomisc/thread_pool.py:127-157 | From every state after the sentinel was put, for any number of threads, a run of thread steps brings all of them to their end |
| `ThreadPool.ThreadPoolExecutor.constructor` | aiomisc/thread_pool.py:172-189 | Two threads, or one if that is the limit |
| `ThreadPool.ThreadPoolExecutor.AdjustThreadCount` | aiomisc/thread_pool.py:285-294 | The pool doubles, up to its limit |
| `ThreadPool.ThreadPoolExecutor.SubmitWork` | aiomisc/thread_pool.py:213-246 | Refused exactly if the pool is shut down; else the task is last in the queue, its future tracked, and the pool doubles up to its limit exactly if the futures were as many as the threads |
| `ThreadPool.ThreadPoolExecutor.MoreFutures` | aiomisc/thread_pool.py:265-265 | The loop goes on exactly if a future is left |
| `ThreadPool.ThreadPoolExecutor.PopFuture` | aiomisc/thread_pool.py:266-266 | One of the futures is taken out, or KeyError exactly if none is left by then |
| `ThreadPool.ThreadPoolExecutor.TestFuture` | aiomisc/thread_pool.py:267-268 | A future that is done is passed over |
| `ThreadPool.ThreadPoolExecutor.RejectFuture` | aiomisc/thread_pool.py:269-269 | A pending future is rejected; the call raises exactly if the future is done by now or the event loop is closed |
| `ThreadPool.ThreadPoolExecutor.RejectFutures` | aiomisc/thread_pool.py:265-269 | Undisturbed, exactly the pending futures are rejected on an open event loop; on a closed one the loop is left after the first |
| `PoolProofs.StepOk` | aiomisc/pool.py:120-169 | Every step keeps conservation, single ownership and the agreement of `_used` with the clients |
| `PoolProofs.EveryRunKeepsInv` | aiomisc/pool.py:120-169 | The same over every run, failing and cancelled creations and checks included |
| `PoolProofs.LiveInstancesConservedIff` | aiomisc/pool.py:143-160 | Free permits, creations in flight, live instances and failed creations add up to `maxsize` exactly if as many checks raised as were cancelled |
| `PoolProofs.HealthyIffNoCheckRaises` | aiomisc/pool.py:143-160 | No recycled instance is ever idle, checked or used exactly if no check raises |
| `PoolProofs.ReleaseByAge` | aiomisc/pool.py:131-169 | Over every run a released instance becomes idle or is recycled; one not recycled before becomes idle if younger than `recycle` and is recycled from twice that age on, and without `recycle` none is |
| `Pool.PoolBase.BeginAcquire` | aiomisc/pool.py:143-147 | A creation starts exactly if a permit is free, and creations, instances counted and permits lost never exceed `maxsize` |
| `Pool.PoolBase.InstanceCreated` | aiomisc/pool.py:131-141 | The new instance is counted, dated and idle, was in no table before, and no client has it |
| `Pool.PoolBase.TakeIdle` | aiomisc/pool.py:147-150 | The oldest idle instance goes to the client; it is idle no more, not in use, and no other client has it |
| `Pool.PoolBase.RecycleInstance` | aiomisc/pool.py:120-129 | `_len` plus free permits is unchanged, the instance is in the bin and in no other table, and all other entries are as before |
| `Pool.PoolBase.CheckAnswered` | aiomisc/pool.py:149-160 | A good instance is in use by this client alone; a bad one is in the bin, no client has it, and the client starts a creation |
| `Pool.PoolBase.CheckFailed` | aiomisc/pool.py:151-160 | After a check that raises the client uses an instance that is in the bin, and its permit is free |
| `Pool.PoolBase.ReleaseInstance` | aiomisc/pool.py:162-169 | An instance in use has exactly one user; releasing it is that client's step, after which no client has it and it is idle or in the bin |
| `Pool.PoolBase.RecyclerTurn` | aiomisc/pool.py:93-102 | One instance of the bin is destroyed |
| `WorkerFraming.Header` | aiomisc_worker/protocol.py:26-28 | Four bytes that are the length's digits to the base 256, the most significant first |
| `WorkerFraming.UnpackHeader` | aiomisc_worker/protocol.py:26-37 | The four-byte length survives packing and unpacking |
| `WorkerFraming.DecodePacked` | aiomisc_worker/protocol.py:26-37 | A frame followed by anything decodes to its payload and leaves the rest |
| `WorkerFraming.DecodeAllOfCutFrames` | aiomisc_worker/protocol.py:33-37 | A stream of frames cut anywhere decodes to a prefix of the payloads, and to all of them if it is whole |
| `WorkerFraming.Socket.Read` | aiomisc_worker/protocol.py:59-66 | Exactly the bytes asked for, or failure exactly if the stream is too short, for every chunking |
| `WorkerFraming.Socket.Receive` | aiomisc_worker/protocol.py:33-37 | One message, or failure, as the stream decodes |
| `WorkerFraming.Socket.ReceiveAll` | aiomisc_worker/protocol.py:33-37 | All complete messages, whatever the chunks |
| `WorkerFraming.RoundTrip` | aiomisc_worker/protocol.py:26-66 | Framed, concatenated and cut in any way, payloads arrive as they were |
| `WorkerProofs.StepOkIff` | aiomisc_worker/worker.py:16-43 | A step keeps one outstanding request per connection and replies with their tasks exactly if it is not a late cancel signal on a served connection |
| `WorkerProofs.OrderedIffPunctual` | aiomisc/worker_pool.py:208-261 | One outstanding request per connection and replies with their own tasks at every state of a run, exactly if no late signal hits a connection that is still served |
| `WorkerProofs.EveryRunKeepsInv` | aiomisc/worker_pool.py:208-261 | At the end of every run whose late signals hit only connections nobody serves, each reply has resolved only the future of the request last sent on its connection |
| `WorkerProofs.SentMeansResolved` | aiomisc/worker_pool.py:208-261 | On such a run a task that was sent and is no longer awaited is resolved, by its own reply if by any, unless its handler was cancelled |
| `WorkerProofs.LateSignalMisroutes` | aiomisc_worker/worker.py:29-33 | After a late signal the next task of the connection gets the previous task's reply |
| `WorkerProofs.IdleConnectionCanMisroute` | aiomisc_worker/worker.py:29-33 | Every idle connection with two fresh tasks can reach that |
| `WorkerProofs.MisroutesFromTheStart` | aiomisc_worker/worker.py:29-33 | From the start, for every queue size and number of connections, two tasks and one late signal give the second task the first one's reply |
| `WorkerPools.WorkerPool.AddTask` | aiomisc/worker_pool.py:334-342 | Two new futures, and an entry of the queue exactly if it has room; else the caller waits to put it |
| `WorkerPools.WorkerPool.CancelTask` | aiomisc/worker_pool.py:344-351 | A caller that waits for the pid cancels the process future, so the task will be skipped; one that waits for the reply cancels the result and signals the worker |
| `WorkerPools.WorkerPool.NextTask` | aiomisc/worker_pool.py:209-229 | A task is sent exactly if neither of its futures is done; then nothing else is on its way to this handler, and no other handler waits for it |
| `WorkerPools.WorkerPool.ReplyReceived` | aiomisc/worker_pool.py:230-246 | The reply belongs to the task that was sent and becomes its result unless that is set already |
| `WorkerPools.WorkerPool.ConnectionLost` | aiomisc/worker_pool.py:247-252 | The task that was sent gets ProcessError, unless its result is set, and the handler ends |
| `WorkerPools.WorkerPool.HandlingFailed` | aiomisc/worker_pool.py:253-261 | The task that was sent gets the exception, unless its result is set, and the handler ends |
| `WorkerPools.WorkerPool.ReceiveRequest` | aiomisc_worker/worker.py:18-27 | The request received is the one its handler waits for, if anybody does |
| `WorkerPools.WorkerPool.SendReply` | aiomisc_worker/worker.py:29-43 | One reply of the kind that the function's ending calls for, addressed to what the handler waits for; none, and no worker, on ConnectionError |
| `Backoff.BackoffExecution.Turn` | aiomisc/backoff.py:156-194 | The loop goes on exactly after a retryable failure within the limit that `giveup` declined and whose pause was slept through; attempts and done move together |
| `Backoff.BackoffExecution.Execute` | aiomisc/backoff.py:152-194 | Every attempt but the last failed retryably within the limit, with `giveup` declining and the pause slept through; a returned value is the result, a cancellation is cancellation, any other failure surfaces itself, and the deadline gives way to the failure before it; the statistics count the attempts by kind |
| `Backoff.AtMostMaxTries` | aiomisc/backoff.py:152-194 | A fresh execution makes at most `max_tries` attempts and has ended by then on every trace |
| `Backoff.DeadlineSurfacesOnlyFirst` | aiomisc/backoff.py:152-194 | The deadline's own timeout surfaces exactly if the first attempt runs into it; later the previous failure does |
| `Backoff.SurfacedWasRaised` | aiomisc/backoff.py:152-194 | Whatever exception surfaces, an attempt raised it |

## Left out

- Rounding of floats and the exponential itself: ratios and times are reals, `2 ** x` is any strictly increasing function with values 1 at 0 and 2 at 1.
- AggregateProofs.BatchingRefinesPointwise: is about functions wrapped by `_to_async_aggregate`; a function that sets futures itself is covered by the invariant and by EveryRunIsLater.
- Aggregator statistics, how the function's signature is inspected, and exceptions that are neither `Exception` nor `CancelledError` raised by the function.
- The exception that CircuitBroken carries, `exception_inspector`, and the delay returned by `get_state_delay`.
- `Entrypoint.stop_services`, `graceful_shutdown`, the PRE_START receivers, configuration, signals and ownership of the loop; a start event is set only by its service or by `_start_service`, and its `wait` cannot ignore a cancellation.
- EntrypointProofs.JoinedAtPostStart: starts after PRE_START, since a failure there runs neither startup nor POST_START.
- Entrypoints.Entrypoint.CancelTasks: models `cancel_tasks` on the startup tasks of one group, not on plain futures, of which startup has none.
- DNS wire format, record classes and truncation; records are values, and a set holds at most one of several records that differ only in ttl.
- DnsStore.DNSStore.Query: returns the records as a set, so the order of the tuple is not modelled.
- Interleaving inside one call of `set_result`, `set_exception` or `cancel`, and the thread checks of asyncio's debug mode: such a call is one step.
- The thread loop, `TaskChannel` and `WorkItem` are steps of `ThreadPoolProtocol` and not methods, since every access to shared state interleaves with other threads; a single `+=` on a statistic is one step.
- The second close by `ThreadPoolExecutor.__del__`, `sum_time`, joining of threads, context variables, and iterators over threads.
- `PoolBase.close` and liveness of waiting clients: releasing an expired instance frees a permit without waking a client that waits for an idle one.
- Sockets, processes, authentication, pickle and signal delivery: a socket is a stream cut into chunks and a write is complete; `FileIOProtocol` and `AsyncProtocol` use the same frames.
- WorkerPools.WorkerPool.SendReply: takes how the function ended as given, without what it computes.
- `WorkerPool.close`, supervisor and respawn.
- Backoff.BackoffExecution.Execute: takes the outcomes of attempts, pauses and deadline as a trace, so durations are not modelled, and on a trace that ends too early the result is Unfinished.
- Logging, cron and periodic services, network services, file I/O wrappers, profiler, raven, plugins and the pytest plugin: plumbing that would add only easy members.
