# Baldur: verified models of its concurrent and table-driven cores

Baldur is a resilience layer for Python services. This project models the parts of it whose
correctness cannot be seen from one function body, and proves what they promise for every
input, every interleaving or every history. `dafny verify dfyconfig.toml` checks the whole
project (Dafny 4.11).

| file | what it models | main results |
|---|---|---|
| `CascadeChain.dfy` | cycle and depth checks of an event cascade | `DetectCycle`, `ValidateCascadeChain` |
| `AsyncLogger.dfy` | the audit logger: bounded queue, worker, manual flush, shutdown | `RunsConserve`, `ShutdownDeliversAll`, `ShutdownTerminates` |
| `SingletonRuntime.dfy` | the singleton registry: double-checked creation, re-entrant lock, nested creators | `SingletonProtocol`, `NoDeadlock`, `CallsTerminate` |
| `ProtectFacade.dfy` | resolution of `protect()` arguments, the chain, the policy and composer caches | `Serve`, `ServedAsAsked`, `ServedIsCurrentIff` |
| `ProtectConcurrency.dfy` | the same caches under concurrent calls and resets | `RunsBuildOnce`, `CallsSharePolicy`, `ResetSafeIff` |
| `NoticesClosure.dfy` | the dependency closure of the notices generator | `ResolveClosure`, `ClosureOfUnion` |
| `HistogramP95.dfy` | the 95th percentile from histogram buckets | `P95ErrorBound` |
| `AuditLifecycle.dfy` | startup and shutdown guards over a tree of forked processes | `RunsKeepGuards`, `TeardownAfterStartupIff`, `ChildTeardownIff` |
| `BootstrapWiring.dfy` | the wiring of the provider registries and its reset | `WiringDecides`, `StartupRefusesIff`, `ResetErasesHistory` |
| `LoadShedding.dfy` | priority-based shedding with a rate check outside the lock | `RunsKeepPromises`, `RateBoundReached` |
| `EnvMigration.dfy`, `EnvRenames.dfy` | the environment-variable migration and its rules | `MigrateEnv`, `RenamesFit` |
| `Wrappers.dfy` | `Option` | |

How the source's forms are kept: a class whose methods update fields is a class whose methods
are proved against functions of the old state; loops stay loops. Where threads or processes
interleave, the protocol is a state machine on values (`Next`, `Run`) whose steps are the
source's atomic sections, and the results hold in every reachable state.

Clocks, the settings a call sees, which providers are registered and which of them construct,
package metadata, marker evaluation and name canonicalisation are parameters.

## Where the code and what it says differ

The models follow the code.

- A dead-letter composer in the cache keeps the retry configuration of the call that built it
  (src/baldur/protect_facade.py:212-266, stated there). `ServedIsCurrentIff` says exactly when
  this shows.
- `reset_protect_caches` can run between the moment a thread resolves its breaker policy and
  the moment it stores the composer (src/baldur/protect_facade.py:188-204). The stored composer
  then carries a policy object of the epoch before, and calls that bypass the composer cache
  get another one. `CallsSharePolicy`, `ResetSafeIff` and `RacingResetSplits` are about the
  identity of policy objects, which is what the cache promises to build once; failures are
  recorded on the process-shared breaker service under the name either way
  (src/baldur/services/circuit_breaker/policy.py:120-128).
- The teardown of a pipeline that was started can be lost in two ways
  (src/baldur/audit/async_audit_lifecycle.py:204-215, 417-426). A shutdown before any completed
  startup leaves its flag raised, and a later startup, in that process or in a child forked
  from it, clears the flag only when it discards a completed startup (`LostTeardown`,
  `ChildLosesTeardown`). And a shutdown that runs while startup is under way, under the other
  lock, is not taken back by the startup (`LostDuringStartup`). `TeardownAfterStartupIff` and
  `ChildTeardownIff` are the exact conditions.
- `should_accept` reads the rate window before it takes the lock
  (src/baldur/audit/cascade_load_shedding.py:190-193), so k concurrent callers can exceed the
  configured rate by k - 1. `RunsKeepPromises` is the bound and `RateBoundReached` shows that it
  is met.
- An explicit LOW priority has the value 0 and counts as absent
  (src/baldur/audit/cascade_load_shedding.py:185); all results are about the effective priority.
- The usage example in the same module calls `record_dropped` after a rejection that
  `should_accept` has already counted, so such a drop is counted twice; the balance proved here
  has `record_dropped` calls as a term of their own.
- The docstring of `_wire_registry_defaults` counts its registries as the cache and five, four
  and four more (src/baldur/bootstrap.py:2526-2532); the table has six Redis rows, three SQL or
  Django rows and five priority chains.
- The `in_bucket <= 0` guard of `p95_from_buckets` cannot be taken; `Interpolate` has the branch
  and proves it dead.

## Model

| member | source | states |
|---|---|---|
| `CascadeChain.DetectCycle` | src/baldur/audit/cascade_chain.py:152-219 | ends on every effect list (duplicate ids, multi-edges, self-loops); returns nothing exactly when no cycle is reachable from the trigger, and then the finishing order ranks every reachable edge downwards; a returned list is a real cycle the trigger reaches |
| `CascadeChain.BuildChildren` | src/baldur/audit/cascade_chain.py:186-192 | the adjacency dictionary holds an edge exactly when some effect was caused along it |
| `CascadeChain.CycleSearch.constructor` | src/baldur/audit/cascade_chain.py:195-196 | the search starts with nothing visited and an empty path |
| `CascadeChain.CycleSearch.Dfs` | src/baldur/audit/cascade_chain.py:198-217 | either the node and all it reaches are finished and the path is restored, or a reachable cycle is returned |
| `CascadeChain.CycleSearch.Leave` | src/baldur/audit/cascade_chain.py:210-217 | popping a node whose children are finished keeps the finished-node invariant |
| `CascadeChain.CycleSearch.CycleIsReported` | src/baldur/audit/cascade_chain.py:199-202 | the path from the repeated node on, closed by it, is a chain of causations with distinct inner nodes that the trigger reaches |
| `CascadeChain.RankExcludesCycles` | src/baldur/audit/cascade_chain.py:152-219 | a rank that drops along every reachable edge leaves no reachable cycle: the certificate behind an answer of None |
| `CascadeChain.WalkStaysBelow` | src/baldur/audit/cascade_chain.py:198-217 | every walk from a finished node stays among the nodes finished before it |
| `CascadeChain.ValidateCascadeChain` | src/baldur/audit/cascade_chain.py:279-325 | a depth error exactly when the depth check blocks; a cycle error exactly when it did not, detection is on and a cycle is reachable, and it names a real cycle |
| `CascadeChain.CheckChainDepth` | src/baldur/audit/cascade_chain.py:37-95 | the depth verdict, with the depth and the limit it reports |
| `CascadeChain.CheckCycle` | src/baldur/audit/cascade_chain.py:222-264 | raises exactly when detection is on and a cycle is reachable |
| `AsyncLogger.RunsConserve` | src/baldur/audit/audit_integration.py:250-291 | over every interleaving of producers, workers, manual flushes, start, stop and reconfiguration: an event whose log call returned True is in exactly one place (queue, a batch, delivered, discarded for lack of a callback), a rejected one in none |
| `AsyncLogger.NextConserves` | src/baldur/audit/audit_integration.py:395-487 | every single step keeps that account, event by event |
| `AsyncLogger.QueueBounded` | src/baldur/audit/audit_integration.py:284-291 | a bounded queue never holds more than its size, and an event is refused if and only if it holds as many |
| `AsyncLogger.ControlsInForce` | src/baldur/audit/audit_integration.py:158-198 | batch size, callback and running flag are those last configured, started and stopped |
| `AsyncLogger.NoCallbackNoDelivery` | src/baldur/audit/audit_integration.py:469-473 | without a callback nothing is ever delivered |
| `AsyncLogger.PassAsInLoop` | src/baldur/audit/audit_integration.py:432-448 | a worker's pass in the interleaving model is the loop's: one event at most, and a hand-over exactly at the batch size or, with something to hand over, the interval |
| `AsyncLogger.FlushNowAlone` | src/baldur/audit/audit_integration.py:395-406 | an undisturbed manual flush hands the whole queue over as one batch |
| `AsyncLogger.LoopBatchesBounded` | src/baldur/audit/audit_integration.py:432-448 | with a fixed batch size of at least one, the running loop hands over between one and that many events at a time |
| `AsyncLogger.SoleWorkerKeepsOrder` | src/baldur/audit/audit_integration.py:427-467 | while one worker at a time is the only consumer: handed over, then held, then queued, in the order of the log calls |
| `AsyncLogger.ShutdownDeliversAll` | src/baldur/audit/audit_integration.py:427-467 | from any moment at which the logger was running, over any further steps in which no event is queued once nobody will look at the queue again: when all threads have left, the logger is stopped and the queue is empty; with a callback from the start every accepted event was delivered exactly once, in log order if one worker at a time was the only consumer |
| `AsyncLogger.StopDeliversAll` | src/baldur/audit/audit_integration.py:221-248 | stop in any reachable running state with nothing queued later: once the threads have left, the queue is empty and every accepted event was delivered once |
| `AsyncLogger.RunningIsWatched` | src/baldur/audit/audit_integration.py:180-198 | a running logger always has a worker that will look at the queue again, so an event logged while it runs is in time |
| `AsyncLogger.LateEventStays` | src/baldur/audit/audit_integration.py:250-291 | an event logged after every thread has left stays queued until a start or a manual flush: the premise of the delivery results is needed |
| `AsyncLogger.ShutdownTerminates` | src/baldur/audit/audit_integration.py:221-248 | after stop, with no further calls, all threads leave within a number of steps bounded by their positions and the queue |
| `AsyncLogger.StoppedComesToRest` | src/baldur/audit/audit_integration.py:221-248 | and there is always a way to advance the threads until all have left |
| `AsyncLogger.NextKeepsEnd` | src/baldur/audit/audit_integration.py:427-467 | after every step, a thread that has left holds no events |
| `AsyncLogger.AsyncLoggerAdapter.constructor` | src/baldur/audit/audit_integration.py:124-156 | nothing queued, delivered or discarded |
| `AsyncLogger.AsyncLoggerAdapter.LogBatched` | src/baldur/audit/audit_integration.py:284-291 | queued at the end exactly when the queue has room; a full queue refuses and stays as it is |
| `AsyncLogger.AsyncLoggerAdapter.FlushBatch` | src/baldur/audit/audit_integration.py:469-487 | the whole batch is delivered once as one unit, or discarded when there is no callback |
| `AsyncLogger.AsyncLoggerAdapter.Drain` | src/baldur/audit/audit_integration.py:395-406 | takes all that is queued in order and leaves the queue empty |
| `AsyncLogger.AsyncLoggerAdapter.FlushNow` | src/baldur/audit/audit_integration.py:395-406 | hands over exactly the old queue and reports its length |
| `AsyncLogger.AsyncLoggerAdapter.WorkerPass` | src/baldur/audit/audit_integration.py:432-448 | one pass moves at most one event from queue to batch, loses none, and hands over exactly when the batch is full or the interval has passed |
| `AsyncLogger.AsyncLoggerAdapter.WorkerTail` | src/baldur/audit/audit_integration.py:454-467 | the unsent batch first, the rest of the queue second, nothing left behind |
| `SingletonRuntime.SingletonProtocol` | src/baldur/runtime.py:136-176 | over every interleaving of get, set and reset with nested creators: creations of a name number at most one plus its resets; every returned value was the registry's at some moment of the call; without sets or resets there is one creation and one value for all callers |
| `SingletonRuntime.StepEffects` | src/baldur/runtime.py:136-176 | what injections, drops, publications and raising creators do to the registry |
| `SingletonRuntime.CreatorRunsScript` | src/baldur/runtime.py:151-157 | a creator's own requests, injections and drops take effect in turn before its instance is stored |
| `SingletonRuntime.RunsKeepInv` | src/baldur/runtime.py:136-176 | the registry, call and lock invariants hold in every reachable state |
| `SingletonRuntime.NextKeepsInv` | src/baldur/runtime.py:136-176 | each atomic step of a thread keeps them, one step at a time |
| `SingletonRuntime.NoDeadlock` | src/baldur/runtime.py:53-72 | while any call is in progress some thread can step: the re-entrant lock never blocks its owner |
| `SingletonRuntime.NestingBounded` | src/baldur/runtime.py:151-157 | nested gets are never deeper than the dependency rank of the first name requested |
| `SingletonRuntime.CallsTerminate` | src/baldur/runtime.py:136-157 | with no new calls, the calls in progress along acyclic dependencies take together a bounded number of steps, in any order of the threads |
| `SingletonRuntime.CallCostBounded` | src/baldur/runtime.py:136-157 | a get takes at most a number of steps of its own fixed by its creators, nested gets included, whatever other threads call, inject, drop or advance meanwhile |
| `SingletonRuntime.StoreKeeps` | src/baldur/runtime.py:155-157 | publishing an instance while holding the lock keeps every other call in progress right |
| `SingletonRuntime.BaldurRuntime.constructor` | src/baldur/runtime.py:71-92 | an empty registry |
| `SingletonRuntime.BaldurRuntime.Get` | src/baldur/runtime.py:136-157 | a cached value comes back as it is, None and False included; a creator that raises caches nothing; with creators that only get, each name is created at most once |
| `SingletonRuntime.BaldurRuntime.Set` | src/baldur/runtime.py:159-162 | the name holds the injected value and nothing else changes |
| `SingletonRuntime.BaldurRuntime.Reset` | src/baldur/runtime.py:164-176 | tells a dropped None apart from an absent name, and drops only that name |
| `ProtectFacade.Serve` | src/baldur/protect_facade.py:748-847 | over every history of sync and async calls under any settings, with resets between, each call gets from the caches what a cache-free reading of the history says, and that is what the call asked for, with the settings' defaults where it is silent |
| `ProtectFacade.ServedAsAsked` | src/baldur/protect_facade.py:415-508 | the served chain, on the call's own fields: a retry stage if and only if a configuration or True was given, or nothing and the default is on; a breaker, a timeout, a fallback and a caller's policy likewise; in the documented order; guard and hook, sink and capture exactly when asked for; nothing only when protection is off or an async call brings a policy without an async twin |
| `ProtectFacade.ServeOne` | src/baldur/protect_facade.py:748-964 | one request keeps the caches equal to what the history determines |
| `ProtectFacade.CachingInvisible` | src/baldur/protect_facade.py:212-266 | with unchanged retry settings since the last reset, or since the process began, every sync call gets exactly its own plan, although the cache key leaves the retry configuration out |
| `ProtectFacade.ServedIsCurrentIff` | src/baldur/protect_facade.py:212-266 | a served composer equals per-call construction if and only if the call is not of the dead-letter profile or its key is not pinned to another retry configuration |
| `ProtectFacade.PolicyShared` | src/baldur/protect_facade.py:140-156 | two calls of one name, sync or async, share their breaker policy if and only if no reset lies between them |
| `ProtectFacade.ResetForgets` | src/baldur/protect_facade.py:269-284 | what was pinned before a reset has no effect after it |
| `ProtectFacade.ChainIsDetermined` | src/baldur/protect_facade.py:822-839 | the chain is the one arrangement, fallback outside breaker outside timeout outside retry, of exactly the stages asked for |
| `ProtectFacade.PinnedFromSettings` | src/baldur/protect_facade.py:441-475 | under retry settings fixed since the last reset a pinned configuration is the settings' own with dead-lettering switched on |
| `ProtectFacade.DefaultsFillIn` | src/baldur/protect_facade.py:478-508 | settings matter only where a call is silent: the call with its blanks filled in resolves the same under any other settings with the same retry configurations; an explicit None timeout stays None |
| `ProtectFacade.RetryInputs` | src/baldur/protect_facade.py:415-475 | at most one retry stage; settings-derived only with the settings' own configuration; dead-lettering switched on inside any configuration it goes with |
| `ProtectFacade.OwnStagesBypass` | src/baldur/protect_facade.py:795-819 | a call with a fallback, an idempotency stage or a retry stage of its own is never cacheable |
| `ProtectFacade.ProtectCaches.constructor` | src/baldur/protect_facade.py:90-112 | both caches empty |
| `ProtectFacade.ProtectCaches.GetOrBuildCbPolicy` | src/baldur/protect_facade.py:140-156 | the cached policy if there is one, else a new one that is cached |
| `ProtectFacade.ProtectCaches.GetOrBuildDefaultComposer` | src/baldur/protect_facade.py:159-209 | what per-call construction gives for the plain profile, cached under its key, built around the shared policy |
| `ProtectFacade.ProtectCaches.GetOrBuildDlqComposer` | src/baldur/protect_facade.py:212-266 | the dead-letter chain with the retry configuration of the call that filled the key, whatever this call asks for |
| `ProtectFacade.ProtectCaches.BuildUncached` | src/baldur/protect_facade.py:821-847 | successive adds give the plan's chain, guard and hook, and dead-letter capture; the composer cache is not touched |
| `ProtectFacade.ProtectCaches.AddInner` | src/baldur/protect_facade.py:830-839 | timeout inside the breaker, one retry stage inside the timeout, capture under the name if dead-lettering is on |
| `ProtectFacade.ProtectCaches.BuildSync` | src/baldur/protect_facade.py:795-847 | calls with a fallback, an idempotency stage, an explicit retry configuration or policy neither read nor write the composer cache; the others fill exactly their key |
| `ProtectFacade.ProtectCaches.BuildAsync` | src/baldur/protect_facade.py:850-964 | refuses exactly a built policy without an async twin, before building anything; else the sync chain in async form around the shared policy |
| `ProtectFacade.ProtectCaches.ResetProtectCaches` | src/baldur/protect_facade.py:282-284 | both caches are emptied |
| `ProtectConcurrency.RunsBuildOnce` | src/baldur/protect_facade.py:140-156 | over every interleaving of calls and resets, at most one policy is constructed per name between two resets |
| `ProtectConcurrency.CallsSharePolicy` | src/baldur/protect_facade.py:159-266 | over every interleaving whose resets find no thread about to store a composer: composers served in one epoch hold the same policy object if and only if they have the same name |
| `ProtectConcurrency.ResetSafeIff` | src/baldur/protect_facade.py:269-284 | in every state that such resets lead to: after one more reset, every continuation serves one policy object per name and epoch, if and only if no thread is between resolving its policy and storing its composer |
| `ProtectConcurrency.RacingResetSplits` | src/baldur/protect_facade.py:188-204 | otherwise that thread itself, storing and then calling without the composer cache, is served two policy objects of its name in one epoch |
| `ProtectConcurrency.StoredUntilReset` | src/baldur/protect_facade.py:194-203 | a stored composer is served unchanged until the next reset |
| `ProtectConcurrency.CachedCallStores` | src/baldur/protect_facade.py:194-203 | a call that reaches the composer lock leaves its key cached with what it was served |
| `ProtectConcurrency.StepKeepsCoherent` | src/baldur/protect_facade.py:140-266 | every step but a reset keeps cached, held and served policies in their epoch |
| `NoticesClosure.ResolveClosure` | scripts/generate_notices.py:99-124 | ends on cyclic requirements and finds exactly the installed names that root[extras] reaches through requirements included under the active extras |
| `NoticesClosure.ClosureMonotone` | scripts/generate_notices.py:99-124 | more extras never remove a name |
| `NoticesClosure.ClosureOfUnion` | scripts/generate_notices.py:99-124 | two sets of extras together reach exactly what either reaches |
| `NoticesClosure.ExtrasAreFollowed` | scripts/generate_notices.py:119-123 | when a node of the closure requires n[e], every installed requirement of n that is unconditional or belongs to an extra of e is in the closure |
| `NoticesClosure.SeenIsClosure` | scripts/generate_notices.py:107-124 | when the stack is empty the seen nodes are exactly those the root reaches |
| `NoticesClosure.ClosedSetHoldsReachable` | scripts/generate_notices.py:107-124 | a set closed under included requirements holds all that its members reach |
| `NoticesClosure.CheckMarker` | scripts/generate_notices.py:74-86 | a missing marker holds for the empty extra alone, another when some platform evaluates it true |
| `NoticesClosure.CheckIncluded` | scripts/generate_notices.py:119-121 | included exactly when the marker holds for no extra or for an active one |
| `NoticesClosure.PushRequirements` | scripts/generate_notices.py:117-123 | pushes exactly the nodes of the included requirements, each with its own name and its own extras |
| `HistogramP95.P95ErrorBound` | src/baldur/adapters/prometheus_adapter.py:253-307 | for nonnegative observations pooled from any label sets, exposed in any order: no report without observations; else the report shares a bucket with the exact nearest-rank percentile and lies where the pooled count, drawn as a straight line across that bucket, reaches 0.95 of the observations; or it is the highest edge and the percentile lies above it |
| `HistogramP95.P95FromBuckets` | src/baldur/adapters/prometheus_adapter.py:253-307 | the merged, sorted buckets' first one to reach the rank, and the point on its line where the rank is reached |
| `HistogramP95.MergeBuckets` | src/baldur/adapters/prometheus_adapter.py:272-279 | per label the sum of its samples, over exactly the labels that occur |
| `HistogramP95.SortByBound` | src/baldur/adapters/prometheus_adapter.py:284-285 | sorted by bound with infinity last, with exactly the given labels |
| `HistogramP95.Locate` | src/baldur/adapters/prometheus_adapter.py:290-293 | the first bucket whose cumulative count reaches the rank |
| `HistogramP95.Interpolate` | src/baldur/adapters/prometheus_adapter.py:295-307 | the value at which the straight line between the counts at the bucket's ends reaches 0.95 of the observations, or the last finite bound; the branch for an empty bucket is dead |
| `HistogramP95.SumForPermutation` | src/baldur/adapters/prometheus_adapter.py:272-279 | the merged sums do not depend on the order of the samples |
| `HistogramP95.MergedCounts` | src/baldur/adapters/prometheus_adapter.py:272-286 | the merged table of an exposed family counts the pooled observations |
| `HistogramP95.SelectedBucketHolds` | src/baldur/adapters/prometheus_adapter.py:290-293 | the exact percentile lies above every earlier bound and within the selected one |
| `HistogramP95.FiniteBucketEstimate` | src/baldur/adapters/prometheus_adapter.py:302-307 | a result from a finite bucket lies in the bucket of the exact percentile |
| `HistogramP95.OverflowEstimate` | src/baldur/adapters/prometheus_adapter.py:295-300 | a result from the overflow bucket is a lower bound |
| `HistogramP95.NearestRankUnique` | src/baldur/adapters/prometheus_adapter.py:35-35 | every non-empty sample has exactly one nearest-rank percentile |
| `AuditLifecycle.RunsKeepGuards` | src/baldur/audit/async_audit_lifecycle.py:180-257 | over every run of a tree of forking processes: startup succeeds at most once per process and is retried exactly until it has; inherited flags are discarded at most once; the teardown body begins at most twice, and at most once after the process's own startup |
| `AuditLifecycle.StepKeepsInv` | src/baldur/audit/async_audit_lifecycle.py:180-452 | each write, lock and fork keeps the guard invariant of every process |
| `AuditLifecycle.TeardownOpenIff` | src/baldur/audit/async_audit_lifecycle.py:413-429 | the teardown guard is open if and only if no body has begun since the flag was cleared and the flag was not inherited raised and kept |
| `AuditLifecycle.ChildOfShutDownParent` | src/baldur/audit/async_audit_lifecycle.py:180-257 | a child of any process, after any continuation: if the flags at the fork were shut down without a completed startup it never runs a teardown body; else, once it has started its own pipeline, its teardown is open exactly until a body of its own begins |
| `AuditLifecycle.LostTeardown` | src/baldur/audit/async_audit_lifecycle.py:413-429 | a failed startup followed by a shutdown leaves the retried startup without a teardown: a concrete run |
| `AuditLifecycle.TeardownAfterStartupIff` | src/baldur/audit/async_audit_lifecycle.py:202-257 | over every run, for a process that has started its own pipeline: its teardown is open if and only if the flags its startup found were a completed startup's or showed no shutdown, and no body has begun since that attempt passed the guard or cleared the flag; a closed one never opens again |
| `AuditLifecycle.FoundIsAtBegin` | src/baldur/audit/async_audit_lifecycle.py:204-215 | what an attempt found are the flags of the moment it passed the guard, whatever other processes and the shutdown do while it lasts |
| `AuditLifecycle.ClosedForGood` | src/baldur/audit/async_audit_lifecycle.py:417-426 | once a started process has its guard closed, no body begins in any continuation |
| `AuditLifecycle.UndisturbedStartup` | src/baldur/audit/async_audit_lifecycle.py:202-257 | the single writes of a startup that nothing interrupts add up to what the method leaves |
| `AuditLifecycle.ChildTeardownIff` | src/baldur/audit/async_audit_lifecycle.py:202-215 | a forked child can run the teardown of its own pipeline in some continuation if and only if the parent's flags at the fork were not shut down without a completed startup |
| `AuditLifecycle.ChildLosesTeardown` | src/baldur/audit/async_audit_lifecycle.py:202-215 | a concrete run of the failing half: the parent shuts down before any startup, forks, and the child starts and cannot tear down |
| `AuditLifecycle.LostDuringStartup` | src/baldur/audit/async_audit_lifecycle.py:204-249 | a shutdown that runs while startup is under way closes the guard of the pipeline being started: a concrete run |
| `AuditLifecycle.AuditLifecycleState.constructor` | src/baldur/audit/async_audit_lifecycle.py:61-69 | all flags cold |
| `AuditLifecycle.AuditLifecycleState.Startup` | src/baldur/audit/async_audit_lifecycle.py:180-257 | the new flags; True exactly when this process had not started and the logger came up |
| `AuditLifecycle.AuditLifecycleState.GracefulShutdown` | src/baldur/audit/async_audit_lifecycle.py:384-452 | the body runs exactly once per raised flag; test mode touches nothing |
| `BootstrapWiring.ProductionWiring` | src/baldur/bootstrap.py:2526-2660 | wiring that completes in production puts all Redis rows on redis, so the idempotency check cannot refuse, and the event journal and dead-letter store too unless overridden or unregistered |
| `BootstrapWiring.WiringDecides` | src/baldur/bootstrap.py:1959-2317 | the default of every registry after a complete wiring outside test mode, from the environment alone: redis, database or memory by address, driver and Django for the Redis rows; sql, django or memory for the stores; a registered override, else the best registered backend, for the chains; demoted to SQL or the last resort when it must be built and cannot be |
| `BootstrapWiring.StoresFollowTheirSignal` | src/baldur/bootstrap.py:2050-2084 | recovery sessions, security records and postmortems are on sql with a DSN and a working sql provider, on django with Django alone, on memory without either |
| `BootstrapWiring.OverrideWins` | src/baldur/bootstrap.py:2143-2168 | an operator's override that is registered and can be built is the default |
| `BootstrapWiring.StartupRefusesIff` | src/baldur/bootstrap.py:2526-2660 | startup refuses if and only if there is a legacy alias, production lacks a Redis address or driver, the storage backend cannot be installed, or production selected a backend it must build and cannot |
| `BootstrapWiring.PhaseRefusesIff` | src/baldur/bootstrap.py:2456-2495 | a phase refuses if and only if one of its rows, wired alone, would |
| `BootstrapWiring.EagerVerdict` | src/baldur/bootstrap.py:2226-2317 | production refuses exactly when the selection does not resolve and never demotes; elsewhere the first name that resolves in chain order wins |
| `BootstrapWiring.EagerRowsUsable` | src/baldur/bootstrap.py:2031-2317 | whenever wiring completes, an eager row with a usable last resort has a probe-chosen redis or django or a constructed provider as default |
| `BootstrapWiring.ResetErasesHistory` | src/baldur/bootstrap.py:286-383 | after any history of wirings, refused ones included, a reset and a wiring end like those of a cold process, with the same defaults |
| `BootstrapWiring.WiringSettles` | src/baldur/bootstrap.py:2526-2660 | after a complete wiring every registry is as its own row alone would leave it |
| `BootstrapWiring.PhaseSettles` | src/baldur/bootstrap.py:2456-2495 | a phase that completes leaves at each of its rows what wiring that row alone would |
| `BootstrapWiring.RowFrame` | src/baldur/bootstrap.py:1959-2198 | wiring a row changes no other registry |
| `BootstrapWiring.RowLocal` | src/baldur/bootstrap.py:1959-2198 | wiring a row depends on no other registry |
| `BootstrapWiring.BaselinesMatch` | src/baldur/factory/registry.py:1169-1201 | every row's reset target is the registry's module-load default |
| `BootstrapWiring.TableRows` | src/baldur/bootstrap.py:1802-1935 | one row per registry |
| `BootstrapWiring.ResetIsCold` | src/baldur/bootstrap.py:333-382 | a reset leaves every wired registry as at module load |
| `BootstrapWiring.ProviderRegistries.constructor` | src/baldur/factory/registry.py:1169-1201 | the module-load defaults |
| `BootstrapWiring.ProviderRegistries.EagerValidateWired` | src/baldur/bootstrap.py:2226-2317 | constructs the selection, then the eligible candidates in turn, as the decision function says |
| `BootstrapWiring.ProviderRegistries.WireOne` | src/baldur/bootstrap.py:1959-2198 | a row of any kind: override, probes, refusal, validation |
| `BootstrapWiring.ProviderRegistries.WireKind` | src/baldur/bootstrap.py:2456-2495 | the rows of one kind in table order, stopping at a refusal |
| `BootstrapWiring.ProviderRegistries.WireRegistryDefaults` | src/baldur/bootstrap.py:2526-2660 | the whole wiring: refuses exactly when it must, changes nothing in test mode, and otherwise leaves every registry on the default the environment calls for |
| `BootstrapWiring.ProviderRegistries.ResetInitState` | src/baldur/bootstrap.py:286-383 | the registry steps of the reset |
| `BootstrapWiring.ProviderRegistries.RestoreBaselines` | src/baldur/bootstrap.py:333-382 | baselines restored and instances dropped row by row |
| `LoadShedding.RunsKeepPromises` | src/baldur/audit/cascade_load_shedding.py:151-295 | over every interleaving of k callers that check the rate outside the lock: between resets no window holds more LOW events than the configured rate plus k - 1; dropped is the sum over priorities; accepted plus dropped is decisions plus recorded drops; no decision drops HIGH or CRITICAL |
| `LoadShedding.ResetsRaiseTheBound` | src/baldur/audit/cascade_load_shedding.py:348-352 | a window into which n metric resets fall holds at most n + 1 times that bound |
| `LoadShedding.RateBoundReached` | src/baldur/audit/cascade_load_shedding.py:190-193 | with positive thresholds some interleaving reaches that bound: it is tight |
| `LoadShedding.StepKeepsRate` | src/baldur/audit/cascade_load_shedding.py:190-277 | every step keeps the rate bound |
| `LoadShedding.LockKeepsRate` | src/baldur/audit/cascade_load_shedding.py:193-237 | the locked section keeps it although its check may be stale |
| `LoadShedding.StepKeepsCounts` | src/baldur/audit/cascade_load_shedding.py:193-295 | every step keeps the counters' balance |
| `LoadShedding.DecisionMatchesStatus` | src/baldur/audit/cascade_load_shedding.py:307-346 | a decision rejects exactly what the announced level sheds, plus LOW over the rate |
| `LoadShedding.AcceptanceMonotone` | src/baldur/audit/cascade_load_shedding.py:193-237 | a higher priority, a lower ratio or a quieter window never turns acceptance into rejection |
| `LoadShedding.MappedTriggers` | src/baldur/audit/cascade_event.py:89-119 | the priority of each mapped trigger type |
| `LoadShedding.TrimBounds` | src/baldur/core/rate_limiting.py:200-210 | on an ascending series nothing at or before the start of the window is retained |
| `LoadShedding.CountRecord` | src/baldur/core/rate_limiting.py:118-125 | recording trims nothing that a later window still counts |
| `LoadShedding.CascadeLoadShedding.constructor` | src/baldur/audit/cascade_load_shedding.py:125-140 | no events, no counts |
| `LoadShedding.CascadeLoadShedding.CheckRateLimit` | src/baldur/audit/cascade_load_shedding.py:265-273 | exceeded exactly when the trailing window holds the configured maximum |
| `LoadShedding.CascadeLoadShedding.RecordEventTime` | src/baldur/audit/cascade_load_shedding.py:275-277 | the time is appended and what left the window is trimmed |
| `LoadShedding.CascadeLoadShedding.DecideLocked` | src/baldur/audit/cascade_load_shedding.py:193-237 | the decision, its count and its place in the window |
| `LoadShedding.CascadeLoadShedding.DropEvent` | src/baldur/audit/cascade_load_shedding.py:239-263 | a drop is counted in total and under its priority |
| `LoadShedding.CascadeLoadShedding.ShouldAccept` | src/baldur/audit/cascade_load_shedding.py:151-237 | an explicit priority above LOW is used as it is, LOW or none means the trigger's; ratio times capacity is the size; HIGH and CRITICAL always pass, MEDIUM below the critical threshold, LOW below both and while the window has room; the reason, the fallback advice, the counters and the window fit; a disabled manager accepts and records nothing |
| `LoadShedding.CascadeLoadShedding.RecordDropped` | src/baldur/audit/cascade_load_shedding.py:279-295 | one more drop in total and under one priority alone: the given one above LOW, else the trigger's |
| `LoadShedding.CascadeLoadShedding.ResetMetrics` | src/baldur/audit/cascade_load_shedding.py:348-352 | counters and window are cleared |
| `EnvRenames.MigrateEnv` | scripts/migrate_baldur_env_vars.py:118-132 | on any text: the same number of lines, each with its terminator and all from its first equals sign on; the count is that of the altered lines; a second pass changes nothing |
| `EnvRenames.RenamesFit` | scripts/migrate_baldur_env_vars.py:36-115 | no rule of the table matches a line that begins with what a rule writes, and each replaces a name by a name |
| `EnvRenames.KeptUntouched` | scripts/migrate_baldur_env_vars.py:33-35 | the names that only the lookaheads protect, AUTO_TUNING among them, are left alone |
| `EnvRenames.OtherVariablesUntouched` | scripts/migrate_baldur_env_vars.py:36-115 | a variable whose first word begins none of the patterns is left alone |
| `EnvRenames.LogLevelsMove` | scripts/migrate_baldur_env_vars.py:38-41 | the four log levels move under event logging |
| `EnvRenames.FieldsMove` | scripts/migrate_baldur_env_vars.py:79-115 | the nine correlation fields move under the engine's prefix |
| `EnvRenames.PrefixesGrow` | scripts/migrate_baldur_env_vars.py:46-78 | a prefix that gets one more word is protected by exactly that word |
| `EnvRenames.PrefixesNest` | scripts/migrate_baldur_env_vars.py:54-66 | a prefix put under a wider scope keeps its own words |
| `EnvRenames.PrefixesRespelled` | scripts/migrate_baldur_env_vars.py:43-70 | the seven irregular renames |
| `EnvRenames.AllSettled` | scripts/migrate_baldur_env_vars.py:36-115 | for each of the 44 x 44 pairs a word differs or the lookahead stops the match |
| `EnvRenames.SettledNeverMatches` | scripts/migrate_baldur_env_vars.py:36-115 | and that keeps the pattern from matching, character by character |
| `EnvMigration.Migrate` | scripts/migrate_baldur_env_vars.py:118-132 | the lines rewritten and joined, and how many changed |
| `EnvMigration.RewriteLine` | scripts/migrate_baldur_env_vars.py:122-127 | the line after the first rule that changes it |
| `EnvMigration.RewriteFirst` | scripts/migrate_baldur_env_vars.py:123-127 | that rule is the first one that matches, and a match always changes the line |
| `EnvMigration.RewriteTwice` | scripts/migrate_baldur_env_vars.py:118-132 | one pass reaches the normal form of a line |
| `EnvMigration.RewriteKeeps` | scripts/migrate_baldur_env_vars.py:118-132 | value and terminator of a line are kept |
| `EnvMigration.MigratedLines` | scripts/migrate_baldur_env_vars.py:118-132 | the output splits into exactly the rewritten lines |
| `EnvMigration.JoinSplit` | scripts/migrate_baldur_env_vars.py:122-132 | splitting with terminators kept and joining give the text back |
| `EnvMigration.SplitLinesIff` | scripts/migrate_baldur_env_vars.py:122-122 | the lines of a text are the only complete lines, terminators included and CR LF kept together, that join to it |
| `EnvMigration.BreakCharacters` | scripts/migrate_baldur_env_vars.py:122-122 | the ten characters a line can end at |
| `EnvMigration.MigrationIsNormal` | scripts/migrate_baldur_env_vars.py:118-132 | for any rules of this kind: lines kept, the second pass the identity with no changes |

## Left out

- Logging, metrics export, posture text and startup reports: output only.
- What circuit breakers, retries, timeouts, fallbacks and the idempotency gate do when a call runs: only the chain that is built around them is modelled.
- Settings lookup (`get_settings`, `get_runtime`, `RetryPolicyConfig.from_settings`): plain caching of values that are parameters here.
- A crash of the audit worker thread and its replacement: the worker is assumed to run until it leaves.
- The stages of the audit teardown and the recovery of the write-ahead log: file and network operations; only the flags, locks and guards are modelled.
- Storage backends, entry-point hooks and worker starters in bootstrap: outside systems; the probes and constructions they answer are arbitrary inputs.
- Rounding and not-a-number in the percentile arithmetic: `real` is used, and labels parse to a finite bound or to infinity.
- Parsing of requirement strings, licence lookup and rendering in the notices generator: text processing around the closure.
- The file handling and options of the migration script: the model is the function from text to text and count.
- The hash chain of cascade events: its builder and verifier work on stored records; `calculate_hash` alone is one digest of one record.
- Service-level objectives, configuration tracking, cleanup and health checks: single arithmetic expressions, or records passed on to files and sockets, with no state of their own to keep an invariant over.
- The remaining scripts and examples: they scan source files or spawn processes.
- AsyncLogger.RunsConserve: threads and the queue are values in a state machine, so a step is one queue operation, flag test or hand-over; the class beside it is the same code run by one thread.
- SingletonRuntime.SingletonProtocol: a creator is a script of registry operations followed by an instance or an exception, with requests along an acyclic relation; other effects of creators are not modelled.
- ProtectFacade.Serve: requests are served one at a time; ProtectConcurrency has the interleavings, there with a composer reduced to the breaker policy inside it.
- LoadShedding.RunsKeepPromises: counters are taken since the last reset, as in the source, and the clock does not run backwards; windows across resets are in ResetsRaiseTheBound.
- BootstrapWiring.ResetErasesHistory: the steps of the reset are assumed not to fail; which providers are registered belongs to the environment of the wiring.
- EnvRenames.MigrateEnv: rules are stored by their words and applied to characters; regular expressions in general are not modelled.
