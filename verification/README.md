# An async MCP gateway, modelled and proved

The gateway puts a tenant's downstream tool servers behind one MCP endpoint. This project models
the components of it that hold a protocol, a cache, a scheduler or a ranking, and proves what
they keep over whole runs. Each file is one component:

| file | component |
|---|---|
| `sandbox_pool.dfy` | the warm worker pool: leases, sweep, kill-and-replace |
| `sandbox_executor.dfy` | global and per-tenant guards, and nested runs that take none |
| `call_tree.dfy` | cross-tool calls: re-authorization, depth limit, budget per run |
| `embedding_single_flight.dfy` | one provider call for concurrent identical texts |
| `embedding_breaker.dfy` | retries and the circuit breaker |
| `ttl_lru_cache.dfy` | the embedding cache |
| `hybrid_fusion.dfy` | Reciprocal Rank Fusion and pin merging |
| `tool_authorization.dfy` | tool discovery against the per-call decision |
| `tenant_status.dfy` | the status caches of several replicas over one control document |
| `usage_metering.dfy` | quotas checked before and recorded after concurrent calls |
| `server_exporter.dfy`, `export_naming.dfy` | the closure a server export bundles, and its names |
| `cache_migration.dfy` | purge and re-embedding of stale cache entries |
| `egress.dfy` | allowlist evaluation and address pinning |
| `pending_actions.dfy` | approval and one-time consumption of confirmed calls |
| `guardrails.dfy` | the Luhn check of card numbers (ISO/IEC 7812-1, Annex B) |

Concurrent components are state machines: a step is what runs between two awaits, or one atomic
collection operation, `Enabled` says when it may happen, `Apply` what it does, and an
`IsRun` predicate describes every interleaving. A class then performs the steps on its fields,
each method proved equal to its step; theorems about runs are lemmas over `IsRun`. Sequential
loops are methods proved against a function or a property, with lemmas about that function.
Time is a non-decreasing integer, floating point is `real`, hashes, embeddings, address
libraries and source analysis are function parameters, and outcomes of foreign calls
(subprocesses, provider, network) are inputs of the steps.

## What turned out different from the documentation

Where the code and its promise differ, the model follows the code, and the project states when
the promise holds:

- Every worker of the configured size is accounted for exactly as long as no submit is cancelled while it starts the
  pool (`SandboxPool.ConservationExactly`); after that it stays short (`AbandonedForGood`).
- A cancelled leader of a shared embedding leaves its followers waiting for ever, and a cancelled
  follower cancels the others (`SingleFlight.WaitsOnLiveLeader`, `StrandedUntilDropped`,
  `FollowerOutcome`). One text gets a second live request exactly when a call enters past a live
  one of another event loop (`AtMostOneLeader`, `TwoLoopsTwoLeaders`).
- The circuit breaker is not closed by a success, and after its timer one failure opens it again
  (`EmbeddingBreaker.OpenAfterTrip`, `OneFailureReopens`).
- A status change is "effective on this replica" immediately only if no getter, and no other
  setter, there still carries another value (`TenantStatus.WriteTakesEffect`); otherwise the old
  value can come back for one more lifetime (`LateReaderUndoesWrite`).
- Listing shows uncallable tools to callers without a tool scope (`ToolAuthorization.SafeListing`).
  The service functions, given both a server and scopes, do not look at the server grant either
  (`SafeNamedListing`); no route of the gateway passes both today.
- An accepted egress evaluation does not always leave an address to pin (`Egress.SelectionSucceeds`,
  `AcceptedButNotPinned`).
- An exported server starts with every tool running its own function exactly if no server has two
  tools with one slug, and no server slug absorbs a double underscore of another tool's
  (`ExportNaming.ExportServer`, `PlainSlugsCollide`, `AliasesCollide`). In the first case the
  server usually does not start (`SlugCollision`), in the second one tool runs another's
  function (`AliasCollision`).
- Re-embedding replaces an active entry by the result of a stale one of the same key
  (`CacheMigration.ActiveDocumentReplaced`), and two stale entries of one key without an active one
  can become two active entries (`RaceMakesTwins`).
- Quotas are exact only for one call at a time (`UsageMetering.OvershootBound`, `OvershootReached`).

## Model

Within a component the members that state properties come first; rows of the form `Class.Method`
are the methods of its class, most of which perform one step and are proved equal to it.

| member | source | states |
|---|---|---|
| `SandboxPool.StepKeeps` | services/sandbox_pool.py:97-420 | no step of any interleaving of start-up, submits, sweep, refills, process exits and shutdown breaks the pool invariant |
| `SandboxPool.RunKeeps` | services/sandbox_pool.py:97-420 | the pool invariant holds in every state of every run from a new pool |
| `SandboxPool.ConservationExactly` | services/sandbox_pool.py:97-110 | while open, residents, pending refills, failed spawns and start-up spawns to come add up to the configured size exactly as long as no start was cancelled |
| `SandboxPool.AbandonedExactly` | services/sandbox_pool.py:97-110 | spawns have been given up exactly if some start was cancelled |
| `SandboxPool.AbandonedForGood` | services/sandbox_pool.py:97-110 | what a cancelled start did not spawn is never made up for: the pool stays that much smaller |
| `SandboxPool.Conservation` | services/sandbox_pool.py:401-420 | while the pool is open, residents, pending refills, failed spawns, start-up spawns to come and those a cancelled start gave up add up to the configured size, so a pending refill always finds room |
| `SandboxPool.Ownership` | services/sandbox_pool.py:127-169 | while open, a resident worker is in exactly one place, once: free queue, one lease, or the hands of the sweep; any other worker is nowhere |
| `SandboxPool.JobsCapped` | services/sandbox_pool.py:163-169 | with a cap set, no run of the open pool has more steps in which one worker finishes a job than the cap, and the step that reaches it takes the worker out |
| `SandboxPool.JobsAreCounted` | services/sandbox_pool.py:163-169 | the job count of a worker is the number of jobs it finished in the run |
| `SandboxPool.WornOutExactly` | services/sandbox_pool.py:163-169 | finishing a job takes a worker out of the open pool exactly if a cap is set and this job reaches it; otherwise it is queued again |
| `SandboxPool.SpawnedJoins` | services/sandbox_pool.py:103-107 | a successful spawn of the open pool joins the residents and the end of the queue, unused |
| `SandboxPool.FailuresAreCounted` | services/sandbox_pool.py:103-107 | the failure count is the number of spawns that failed in the run |
| `SandboxPool.QueueDiscipline` | services/sandbox_pool.py:127-169 | first in, first out: a submit gets the head of the queue, and what is queued again goes to its end |
| `SandboxPool.RetiredExactly` | services/sandbox_pool.py:231-243 | the sweep discards a worker exactly if its process is dead or, with an age limit, that age has passed between its spawn and the sweep |
| `SandboxPool.NeverHandedAgain` | services/sandbox_pool.py:383-394 | a worker that failed a job or a ping, aged out, wore out or died is never given to a later submit of the open pool |
| `SandboxPool.WorkerPool.constructor` | services/sandbox_pool.py:64-95 | a new pool has nothing started, queued, leased or pending |
| `SandboxPool.WorkerPool.BeginStart` | services/sandbox_pool.py:97-103 | takes the lock and fixes the number of spawns to come |
| `SandboxPool.WorkerPool.ContinueStart` | services/sandbox_pool.py:103-107 | one start-up spawn, successful or not, is accounted for |
| `SandboxPool.WorkerPool.FinishStart` | services/sandbox_pool.py:108-110 | start-up ends and releases the lock |
| `SandboxPool.WorkerPool.AbandonStart` | services/sandbox_pool.py:100-107 | a start cancelled with its submit releases the lock and gives up the spawns to come |
| `SandboxPool.WorkerPool.Admit` | services/sandbox_pool.py:103-107 | a spawned worker becomes resident and idle, a failed spawn changes nothing but the count of failures |
| `SandboxPool.WorkerPool.Discard` | services/sandbox_pool.py:383-394 | a discarded worker leaves the residents at once with one refill pending; a second discard does nothing |
| `SandboxPool.WorkerPool.EnterSubmit` | services/sandbox_pool.py:120-127 | a closed pool refuses, an open one queues the submit |
| `SandboxPool.WorkerPool.GiveUp` | services/sandbox_pool.py:127-149 | a submit that ran out of time holds nothing |
| `SandboxPool.WorkerPool.TakeCandidate` | services/sandbox_pool.py:132-143 | the head of the queue goes to the submit unless its process is dead, in which case it is recycled and the submit waits on |
| `SandboxPool.WorkerPool.FinishJob` | services/sandbox_pool.py:162-169 | the worker goes back to the queue, or is discarded when it has reached the job cap |
| `SandboxPool.WorkerPool.FailJob` | services/sandbox_pool.py:155-161 | whatever went wrong, the worker is discarded |
| `SandboxPool.WorkerPool.DrainForSweep` | services/sandbox_pool.py:222-230 | the sweep takes every idle worker, in order, and nothing else |
| `SandboxPool.WorkerPool.CheckDrained` | services/sandbox_pool.py:231-243 | dead and over-age workers are discarded, the next one is pinged, a closed pool only requeues |
| `SandboxPool.WorkerPool.FinishPing` | services/sandbox_pool.py:243-247 | a worker that answers goes back to the queue, one that does not is discarded |
| `SandboxPool.WorkerPool.FinishReap` | services/sandbox_pool.py:401-407 | a refill of a closed pool ends here, any other waits for the lock |
| `SandboxPool.WorkerPool.EnterRefill` | services/sandbox_pool.py:408-412 | a refill that finds the pool closed or full gives up, any other starts one spawn |
| `SandboxPool.WorkerPool.FinishRefill` | services/sandbox_pool.py:412-420 | the replacement joins the residents and the queue unless the spawn failed or the pool closed meanwhile |
| `SandboxPool.WorkerPool.ShutDown` | services/sandbox_pool.py:171-190 | closing marks every resident as discarded and empties residents, queue and sweep; pending refills stay for the moment |
| `SandboxPool.WorkerPool.DropRefills` | services/sandbox_pool.py:192-194 | the end of closing drops every pending refill and its hold on the lock |
| `TtlLru.Refines` | services/embeddings.py:74-98 | after any sequence of gets and sets, keys are distinct, the size cap holds and every entry is the latest set of its key |
| `TtlLru.HitIsLatest` | services/embeddings.py:80-90 | a hit is the value of the latest set of that key, which has not expired |
| `TtlLru.KeptSince` | services/embeddings.py:92-98 | from its last touch on, an unexpired entry stays, with no more entries behind it than other keys touched since |
| `TtlLru.Retention` | services/embeddings.py:92-98 | a key is still served as long as it has not expired and fewer than the maximum of other keys were set or hit since its last touch |
| `TtlLru.GetExactly` | services/embeddings.py:80-90 | a get hits exactly if the key has an unexpired entry, which becomes the youngest; after a miss the key has no entry, and the others keep their order |
| `TtlLru.SetExactly` | services/embeddings.py:92-98 | a set puts its entry, good for the lifetime from now, behind all others, and the oldest beyond the maximum go |
| `TtlLru.TtlLruCache.constructor` | services/embeddings.py:74-78 | an empty cache of at least one entry and no negative lifetime |
| `TtlLru.TtlLruCache.Get` | services/embeddings.py:80-90 | serves an unexpired entry and makes it the youngest; drops an expired one |
| `TtlLru.TtlLruCache.Set` | services/embeddings.py:92-98 | the entry becomes the youngest and the oldest make room for it |
| `SingleFlight.StepKeeps` | services/embeddings.py:133-144 | no step of any interleaving of calls, answers, cancellations, cleanups and resets breaks the links between calls, futures and the in-flight map |
| `SingleFlight.RunKeeps` | services/embeddings.py:156-196 | those links hold in every state of every run |
| `SingleFlight.FollowerOutcome` | services/embeddings.py:176-191 | a follower ends with the exact outcome of the leader it joined, unless a cancelled follower withdrew their shared future |
| `SingleFlight.WaitsOnLiveLeader` | services/embeddings.py:179-196 | a follower waits on a pending future whose leader is done exactly if that leader was cancelled |
| `SingleFlight.StrandedUntilDropped` | services/embeddings.py:188-191 | nothing but cancelling one of the followers ever completes the future of a cancelled leader |
| `SingleFlight.OwnEntryOnly` | services/embeddings.py:192-196 | an entry goes only by its own leader or a reset, and is replaced only when its future is done or of another loop |
| `SingleFlight.SoloExactly` | services/embeddings.py:162-175 | a step keeps the live future of a text (unresolved, its leader still at the provider) the only one exactly if no call enters past a live future of another event loop |
| `SingleFlight.AtMostOneLeader` | services/embeddings.py:162-175 | a run has two live futures of one text with no reset between them exactly if at some step a call of that text enters while a live one is on another event loop |
| `SingleFlight.OneLoopOneLeader` | services/embeddings.py:162-175 | so a text all of whose calls run on one event loop never has two |
| `SingleFlight.TwoLoopsTwoLeaders` | services/embeddings.py:164-175 | with two event loops two live futures can even be on the same loop, as the second loop replaces the entry of the first |
| `SingleFlight.CancelledLeaderStrands` | services/embeddings.py:188-196 | a run in which a cancelled leader leaves its follower waiting for ever |
| `SingleFlight.ServedVectorsAreAnswers` | services/embeddings.py:156-196 | every vector served for a text, from cache, as leader or as follower, is one the provider returned for that text |
| `SingleFlight.AnswerDecides` | services/embeddings.py:179-191 | what the provider answers is from then on the outcome of the leader, and of their future unless a follower withdrew it before |
| `SingleFlight.AnswerIsServed` | services/embeddings.py:156-186 | a call that arrives after a good answer for its text, before that leaves the cache, is served the latest such answer at once |
| `SingleFlight.NoneJoinsAcrossReset` | services/embeddings.py:133-144 | after a reset no call joins a future that was there before it |
| `SingleFlight.EmbeddingService.constructor` | services/embeddings.py:116-131 | a new service has nothing in flight and an empty cache |
| `SingleFlight.EmbeddingService.LookUp` | services/embeddings.py:156-159 | a cached vector ends the call |
| `SingleFlight.EmbeddingService.JoinOrLead` | services/embeddings.py:161-177 | a live future of the same text on the same loop is joined, any other situation makes the caller a leader with an entry of its own |
| `SingleFlight.EmbeddingService.Publish` | services/embeddings.py:179-191 | caches a good vector and completes the future with the outcome, unless it is completed already |
| `SingleFlight.EmbeddingService.AbandonLead` | services/embeddings.py:188-191 | a cancelled leader leaves its future as it is |
| `SingleFlight.EmbeddingService.CleanUp` | services/embeddings.py:192-196 | removes the entry only if it is still the leader's own |
| `SingleFlight.EmbeddingService.ResumeFollower` | services/embeddings.py:176-177 | the follower gets what the future holds |
| `SingleFlight.EmbeddingService.DropFollower` | services/embeddings.py:176-177 | cancelling a follower cancels the future it awaits |
| `SingleFlight.EmbeddingService.ResetCircuitBreaker` | services/embeddings.py:133-144 | forgets every entry and touches no future |
| `EmbeddingBreaker.CounterIsStreak` | services/embeddings.py:211-217 | the failure counter is the number of failed attempts, over all calls, since the last success or reset |
| `EmbeddingBreaker.OpenAfterTrip` | services/embeddings.py:199-221 | the circuit is open exactly if a failure less than the reset time ago, with no reset since, completed a streak of the configured length; a success does not close it |
| `EmbeddingBreaker.OneFailureReopens` | services/embeddings.py:216-221 | after the timer ran out one more failure opens the circuit again at once, unless an attempt succeeded or somebody reset it |
| `EmbeddingBreaker.AttemptsBounded` | services/embeddings.py:206-224 | an admitted call never has more attempts left than configured |
| `EmbeddingBreaker.BeginExactly` | services/embeddings.py:199-206 | a call that begins with the circuit closed gets exactly the configured attempts, one that begins with it open none |
| `EmbeddingBreaker.AttemptsExactly` | services/embeddings.py:206-224 | each request uses one of them until an attempt succeeds, so a call that never succeeds asks exactly that often |
| `EmbeddingBreaker.OnlyAdmittedCallsAsk` | services/embeddings.py:199-224 | while the circuit is open only calls admitted before ask the provider, each at most as often as it had attempts left |
| `EmbeddingBreaker.EmbeddingService.ResetCircuitBreaker` | services/embeddings.py:141-143 | clears counter and timer |
| `EmbeddingBreaker.EmbeddingService.RecordSuccess` | services/embeddings.py:211-213 | clears the counter and leaves the timer |
| `EmbeddingBreaker.EmbeddingService.RecordFailure` | services/embeddings.py:214-221 | counts the failure and restarts the timer when the count is reached |
| `EmbeddingBreaker.EmbeddingService.EmbedTexts` | services/embeddings.py:198-226 | alone, a call takes the first good answer within its attempts and asks no further; an open circuit asks nothing |
| `HybridFusion.AddArm` | services/hybrid_search.py:569-597 | after an arm, scores and details are those of all documents so far and each key keeps its first document |
| `HybridFusion.Collect` | services/hybrid_search.py:600-607 | each ranked key yields its document with its own score and details |
| `HybridFusion.FuseRrf` | services/hybrid_search.py:552-607 | returns the best `outputLimit` keys of both arms in ranking order, each with its first document and its summed score |
| `HybridFusion.RankingIsOrdered` | services/hybrid_search.py:599 | the ranking has every key of either arm once, by score, ties in first-seen order with the vector arm first |
| `HybridFusion.CutKeepsBest` | services/hybrid_search.py:599 | whatever the limit cuts off ranks behind everything kept |
| `HybridFusion.ScoreClosedForm` | services/hybrid_search.py:569-588 | with distinct keys in each arm a score is the sum, over the arms the key is in, of weight times 1/(60 + rank), the rank counted from 1 |
| `HybridFusion.DetailsClosedForm` | services/hybrid_search.py:574-597 | one detail for each arm the key is in, vector first, with its pipeline, rank, weight and contribution |
| `HybridFusion.FusedInFull` | services/hybrid_search.py:599-607 | each fused result is the first document of its key, with that closed-form score and, if asked for, those details |
| `HybridFusion.FusedOrder` | services/hybrid_search.py:599-607 | the fused list holds the keys of both arms once, by score, ties in first-seen order, as many as the limit allows; what it leaves out scores no higher |
| `HybridFusion.CutIsPrefix` | services/hybrid_search.py:599 | the cut is a prefix of that many entries; a negative limit drops as many from the end |
| `HybridFusion.DetailsExplainScore` | services/hybrid_search.py:574-597 | the reported details of a key sum up to its reported score |
| `HybridFusion.PromotionNeverLowers` | services/hybrid_search.py:569-607 | with non-negative weights and distinct keys, moving a document one place up in either arm never lowers its final place, ties included, so it never loses its place within the limit |
| `HybridFusion.MergePinned` | services/hybrid_search.py:456-478 | the merged list is the pinned tools, then ranked ones, as many as there are seats |
| `HybridFusion.SeatsClosedForm` | services/hybrid_search.py:467-478 | the number of results is max(p, min(limit, n)), for p distinct pinned tools among n distinct tools |
| `HybridFusion.MergedOrder` | services/hybrid_search.py:458-478 | no tool appears twice, pinned tools come first and ranked ones keep their order |
| `HybridFusion.MergedInFull` | services/hybrid_search.py:456-478 | each entry is the first pinned document of its key, marked as pinned, or else the first ranked one as it was |
| `HybridFusion.PinnedPresent` | services/hybrid_search.py:449-453 | no pinned tool is dropped by the limit |
| `ToolAuthorization.FilterAvailableTools` | services/tenant_tool_policy.py:109-149 | exactly the tools available under the tenant overlay remain |
| `ToolAuthorization.GetTool` | services/authorization.py:45-47 | the catalog entry of that server and name, if there is one |
| `ToolAuthorization.AllowedExactly` | services/authorization.py:45-89 | a call is allowed exactly if the tool exists, the tenant has not disabled it, and the caller is an administrator or has the invoke role, the allowlist admits the tool, and the scopes hold the server grant and, if the tool asks for scopes, one of them |
| `ToolAuthorization.ReasonIsFirst` | services/authorization.py:45-89 | the reason names the first test that decided, in that order; lacking any scope is never the reason |
| `ToolAuthorization.UnknownTool` | services/authorization.py:45-47 | an unknown tool is refused as not found, and nothing else is |
| `ToolAuthorization.ListedExactly` | services/hybrid_search.py:62-90 | with or without a server parameter, a listing shows exactly the available tools of the servers and tool scopes the caller names; a caller without scopes sees every one |
| `ToolAuthorization.DiscoveryImpliesInvocation` | services/hybrid_search.py:62-90 | a caller with the invoke role and a tool scope may call whatever a listing without server parameter shows |
| `ToolAuthorization.HiddenButCallable` | services/hybrid_search.py:62-90 | for such a caller the tools that are callable but hidden are exactly those no tool scope of the caller names |
| `ToolAuthorization.SafeListing` | services/hybrid_search.py:62-90 | listing shows only callable tools, whatever the overlay, for exactly the callers with a tool scope, or with scopes that reach no server |
| `ToolAuthorization.UnscopedListing` | services/hybrid_search.py:62-90 | without scopes every available tool is listed and every call refused |
| `ToolAuthorization.ServerScopedListing` | services/hybrid_search.py:62-90 | with server scopes only, an available tool of a granted or a named server is listed that the call then refuses |
| `ToolAuthorization.NamedServerCallable` | services/hybrid_search.py:69-76 | with a server parameter and a tool scope, a listed tool is callable exactly if the caller has the grant for that server |
| `ToolAuthorization.SafeNamedListing` | services/hybrid_search.py:69-76 | with a server parameter listing shows only callable tools, whatever the overlay, for exactly the callers with a tool scope and that grant |
| `SandboxExecutor.StepKeeps` | services/sandbox_executor.py:106-142 | every step keeps slot counts and nesting consistent |
| `SandboxExecutor.RunKeeps` | services/sandbox_executor.py:106-142 | they are consistent in every state of every run |
| `SandboxExecutor.GuardsHold` | services/sandbox_executor.py:106-121 | direct runs inside the guards never exceed the global limit as configured, if it is positive, nor those of a tenant its limit, which is at least one |
| `SandboxExecutor.AdmitsExactly` | services/sandbox_executor.py:116-142 | in every reachable state a waiting run may enter exactly if fewer than the limit are inside, so no slot is lost whatever ended or was cancelled |
| `SandboxExecutor.NestedPassesGuards` | services/sandbox_executor.py:106-119 | a nested run starts at once whatever the guards are at, and leaves them as they were |
| `SandboxExecutor.SomeRunCanStep` | services/sandbox_executor.py:411-425 | in every reachable state with an unfinished run some run can acquire its guard or finish: there is no deadlock |
| `SandboxExecutor.DrainShrinks` | services/sandbox_executor.py:138-142 | without new work every such step takes one off what is left to do, in any order |
| `SandboxExecutor.ReachableDrains` | services/sandbox_executor.py:138-142 | from every reachable state all runs can be brought to their end |
| `SandboxExecutor.NestedWaitWouldDeadlock` | services/sandbox_executor.py:110-115 | an executor whose nested runs wait for the guards deadlocks at a global limit of one, by a run of four steps |
| `SandboxExecutor.WasmExecutor.constructor` | services/sandbox_executor.py:98-104 | semaphores start at their limits, negative settings raised |
| `SandboxExecutor.WasmExecutor.StartRun` | services/sandbox_executor.py:123-138 | a direct run first waits for the global guard if there is one |
| `SandboxExecutor.WasmExecutor.EnterGlobal` | services/sandbox_executor.py:116-121 | enters exactly if a slot is free |
| `SandboxExecutor.WasmExecutor.TenantSemaphore` | services/sandbox_executor.py:418-425 | one semaphore per tenant, made at its limit on first use |
| `SandboxExecutor.WasmExecutor.EnterTenant` | services/sandbox_executor.py:139-142 | enters exactly if the tenant has a free slot, and otherwise changes no value |
| `SandboxExecutor.WasmExecutor.CallSibling` | services/sandbox_executor.py:106-119 | a nested run takes no slot of either kind |
| `SandboxExecutor.WasmExecutor.EndRun` | services/sandbox_executor.py:138-142 | a direct run gives both slots back, a nested one none |
| `SandboxExecutor.WasmExecutor.CancelWaiting` | services/sandbox_executor.py:120-142 | a run cancelled while it waits gives back what it holds |
| `CallTree.Invoke` | services/proxy_registry.py:375-423 | answers with the first refusal that applies, and otherwise leads to exactly the executions of the tool called |
| `CallTree.AnswerExactly` | services/proxy_registry.py:375-423 | each answer is given exactly in its case: forbidden without a grant, confirmation required, not found, not callable, a tool error, or executed |
| `CallTree.AuthorizedExactly` | services/proxy_registry.py:375-388 | the invoker authorizes exactly what the catalog and the overlay of the tenant grant the original caller, empty scopes and roles aside |
| `CallTree.CallTool` | services/proxy_registry.py:284-307 | not mounted: not found; remote: goes downstream; a code server: executed, or refused as disabled, undefined or without source |
| `CallTree.ExecuteCodeTool` | services/proxy_registry.py:427-496 | a tool that is defined and has source is executed once, and the host serves its requests in order as far as depth and budget permit |
| `CallTree.CallTreeBounded` | services/proxy_registry.py:347-425 | from one outside call nesting stays within the depth limit D, executions within the sum of C^i for i = 0..D, and every execution but the first is authorized for the original caller, unconfirmed and on a code server of the tenant |
| `CallTree.TreeBelow` | services/proxy_registry.py:375-416 | every execution below another is deeper, of the same tenant and permitted to the original caller |
| `CallTree.TreeSize` | services/sandbox_tool_bridge.py:89-95 | the executions from any depth on are within the sum for the levels left |
| `CallTree.PermittedRequestRuns` | services/proxy_registry.py:347-425 | within depth and budget every well-formed request that is permitted and can run does run, one level deeper |
| `CallTree.NoCallerNoCalls` | services/proxy_registry.py:362-369 | without a caller, with the bridge off or at the depth limit no sibling is called |
| `CallTree.BoundReached` | services/sandbox_tool_bridge.py:89-95 | the bound is met by a tool that keeps calling itself, in any world where it may run |
| `CallTree.NoBudgetNoBound` | services/sandbox_tool_bridge.py:89-95 | with the budget set to zero there are more executions than any number |
| `CallTree.SandboxToolBridge.constructor` | services/sandbox_tool_bridge.py:61-65 | the budget of a run starts unspent |
| `CallTree.SandboxToolBridge.Dispatch` | services/sandbox_tool_bridge.py:89-113 | a spent budget refuses without counting; any other request counts; a malformed one is answered as invalid, the rest as the invoker answers, and leads to what it allows |
| `TenantStatus.CachedIsRecent` | services/tenant_status.py:100-115 | a value served from any cache was the stored one at an instant later than the lifetime plus the setter's delay ago |
| `TenantStatus.ReadIsCurrent` | services/tenant_status.py:109-115 | a value read from the control document was the stored one while the call ran |
| `TenantStatus.ChangeReachesAll` | services/tenant_status.py:165-179 | a stored value left unchanged for that long is returned by every replica |
| `TenantStatus.WriteTakesEffect` | services/tenant_status.py:172-178 | from its cache update on a change is effective on its own replica, whatever follows, exactly if no getter there carries another value and, where there is a cache, no other setter |
| `TenantStatus.LateReaderUndoesWrite` | services/tenant_status.py:113-114 | a run in which a getter that read before the change makes the replica serve the old value after it, though the new one is stored |
| `TenantStatus.LateReaderServed` | services/tenant_status.py:113-114 | what a getter read is served again from the entry it leaves, until that expires |
| `TenantStatus.InactiveTenantsAreStopped` | services/tenant_status.py:118-134 | a stored suspension or deletion left unchanged for that long stops every call that starts afterwards, on every replica, from cache or control document, with its own error; any other stored status, or none, lets every such call through |
| `TenantStatus.ReadOnlyReachesAll` | services/tenant_status.py:182-200 | the read-only flag spreads within the same bound |
| `TenantStatus.GetterStarts` | services/tenant_status.py:102-107 | a getter answered from the cache asks nothing else; any other goes on to read the control document |
| `TenantStatus.SettersCreateNoTenant` | services/tenant_status.py:165-171 | setters never bring a tenant into being |
| `TenantStatus.NoTtlNoCache` | services/tenant_status.py:87-115 | without a lifetime nothing is ever cached and every getter reads the control document |
| `TenantStatus.Replica.TryCache` | services/tenant_status.py:102-107 | serves an unexpired cached value and asks nothing else |
| `TenantStatus.Replica.FinishRead` | services/tenant_status.py:109-115 | caches what was read, with a lifetime from before the read |
| `TenantStatus.Replica.WriteThrough` | services/tenant_status.py:172-178 | the new value is cached at once, or the entry dropped when caching is off |
| `UsageMetering.RefusesExactly` | services/usage_metering.py:140-181 | a limit of zero never refuses; any other exactly when it is reached or the projection would exceed it, and the first that applies is named |
| `UsageMetering.EverythingCounts` | services/usage_metering.py:68-98 | however calls interleave, no record is lost and none counts twice |
| `UsageMetering.StepBounded` | gateway/mcp_server.py:281-349 | every step of concurrent calls keeps counters plus admitted work within the ceilings |
| `UsageMetering.OvershootBound` | gateway/mcp_server.py:281-349 | with at most k calls between snapshot and record, sandbox time stays within limit + (k-1) caps + what one call may exceed its projection by, and calls within limit + k-1, each where that limit is set; with k = 1 and no excess the limits are exact |
| `UsageMetering.OvershootReached` | gateway/mcp_server.py:281-349 | for every limit, k, cap and slack, some schedule ends exactly at that bound |
| `UsageMetering.UsageCounter.RecordUsage` | services/usage_metering.py:68-98 | counters grow by what is recorded, negative amounts by nothing |
| `UsageMetering.UsageCounter.Admit` | services/usage_metering.py:140-181 | refuses for the first limit the counters have reached or the projection does not fit in |
| `ServerExporter.ToolIndex` | services/server_exporter.py:203-213 | a reference is indexed exactly if its server has a tool of that name, under the last such tool |
| `ServerExporter.LastNamedIsLast` | services/server_exporter.py:210-212 | the last tool of a name is the one no later tool shares its name with; an empty name has none |
| `ServerExporter.ResolveClosure` | services/server_exporter.py:266-291 | the worklist ends; what it builds is exactly what is reachable and has source, what it reports missing exactly what is reachable and has none |
| `ServerExporter.Enqueue` | services/server_exporter.py:289-291 | every reference of a tool just built is built already or queued |
| `ServerExporter.ClosureIsClosed` | services/server_exporter.py:275-291 | every reference of a built tool is built or missing |
| `ServerExporter.PrimaryExact` | services/server_exporter.py:293-297 | of the exported server itself, exactly the tools with source are bundled, whatever refers to them |
| `ServerExporter.BuildServerExport` | services/server_exporter.py:250-297 | the error of an export says whether the server is unknown, not a code server, or without a tool to export |
| `ExportNaming.SlugIsModuleName` | services/server_exporter.py:160-166 | a slug is never empty, starts with a letter, has only letters, digits and underscores and does not end in one |
| `ExportNaming.SlugExactly` | services/server_exporter.py:160-166 | a slug is what lies between the first and the last letter or digit of the name, capitals made small, anything else an underscore, with s_ before a leading digit |
| `ExportNaming.SlugOfNothing` | services/server_exporter.py:160-166 | a name without letter or digit gets the slug tool |
| `ExportNaming.CandidateNumbers` | services/server_exporter.py:303-308 | the names tried are the slug, then the slug with an underscore and a decimal number from 2 on |
| `ExportNaming.FreeSlug` | services/server_exporter.py:303-308 | the search for a free name ends, with the first candidate no earlier server has |
| `ExportNaming.AssignSlugs` | services/server_exporter.py:301-310 | distinct servers get distinct slugs |
| `ExportNaming.SlugsAreModuleNames` | services/server_exporter.py:303-310 | a numbered slug is a module name too |
| `ExportNaming.RenderModules` | services/server_exporter.py:367-373 | package files survive; every tool keeps its own module exactly if no server has two tools with one slug |
| `ExportNaming.PlainSlugsCollide` | services/server_exporter.py:372-373 | two function names without outer underscores share a module file exactly if they differ in case only |
| `ExportNaming.SlugCollision` | services/server_exporter.py:372-373 | so of two tools named Add and add an export keeps one module, and its server starts only if that module happens to define the other name too |
| `ExportNaming.AliasesCollide` | services/server_exporter.py:174-175 | two tools get one import alias exactly if one server slug absorbs a double underscore of the other's tool slug |
| `ExportNaming.AliasCollision` | services/server_exporter.py:442-445 | tool b__c of server a and tool c of server a__b have distinct slugs and modules and one alias |
| `ExportNaming.RunImports` | services/server_exporter.py:440-445 | the server starts exactly if every tool finds its name in the module it is imported from; then each alias stands for an import of that alias |
| `ExportNaming.RunRegistrations` | services/server_exporter.py:450-455 | each tool is registered under its own name, as what its alias stands for |
| `ExportNaming.DistinctAliases` | services/server_exporter.py:174-175 | aliases are distinct exactly if no server has two tools with one slug and no server slug absorbs a double underscore of another tool |
| `ExportNaming.ExportServer` | services/server_exporter.py:367-455 | the exported server starts with every tool running its own function exactly under that condition |
| `CacheMigration.PageSize` | services/cache_migration.py:129-134 | a page is never empty, and a positive batch size wins |
| `CacheMigration.PurgeStaleEntries` | services/cache_migration.py:162-187 | ends with exactly the documents of the active version, unchanged, and counts what went |
| `CacheMigration.Partition` | services/cache_migration.py:212-219 | the documents of a page with tool name and arguments, in page order, the rest counted |
| `CacheMigration.EmbedTexts` | services/cache_migration.py:224-225 | each vector belongs to the text at its place, or all are missing |
| `CacheMigration.StorePage` | services/cache_migration.py:226-231 | in whatever order the halves of the concurrent upserts come, each key of the page is answered and nothing else lost |
| `CacheMigration.ReembedStaleEntries` | services/cache_migration.py:189-239 | ends with no stale document; the counts add up to the stale documents there were; no key gets a second active document but one that had none and several stale ones; a provider failure on the way loses nothing |
| `CacheMigration.EveryKeyAnswered` | services/cache_migration.py:226-239 | each stale document with tool name and arguments has an active one of the tenant and its tool, under the digest of its serialized tool and arguments, with the arguments, result and freshly computed vector of one original document of that digest |
| `CacheMigration.EntriesKeptApart` | services/cache_migration.py:226-239 | entries of different tools, or whose serializations differ in their digest, end in different documents |
| `CacheMigration.UncontestedHasNoNewTwins` | services/cache_manager.py:192-215 | without two stale documents of one key no key gets a second active document |
| `CacheMigration.RaceMakesTwins` | services/cache_migration.py:226-231 | two stale documents of a key without an active one can leave two active ones, when both writes look before either writes |
| `CacheMigration.ActiveDocumentReplaced` | services/cache_manager.py:192-215 | an active document keeps tenant, tool, hash and version, and its whole content if no stale one shares its key; the only one of its key ends up with a stale result exactly if one does |
| `CacheMigration.MigrateTenant` | services/cache_migration.py:79-127 | what the summary says remains is what is still stale, in every mode |
| `CacheMigration.CountsAgree` | services/cache_migration.py:141-147 | the counts by version name agree with the stale query unless the active version is empty or named like the versionless |
| `CacheMigration.Collection.FindStale` | services/cache_migration.py:178 | a page holds stale documents only, and all of them when it is not full |
| `CacheMigration.Collection.Store` | services/cache_manager.py:168-215 | with nothing in between, one active document per call, overwritten in place when one with its key is there |
| `CacheMigration.Collection.FindActive` | services/cache_manager.py:192-198 | finds a document of the key if there is one |
| `CacheMigration.Collection.Put` | services/cache_manager.py:199-215 | overwrites what was found, or inserts |
| `CacheMigration.Collection.DeletePage` | services/cache_migration.py:262-266 | exactly the documents of the page go |
| `Egress.MatchesList` | services/egress_policy.py:126-139 | a list admits a host, in lower case, by name or pattern, or by an address of the same family in one of its networks |
| `Egress.ParseList` | services/egress_policy.py:142-162 | an entry is a network if it can be read as one and a host pattern otherwise; blank ones do not count |
| `Egress.ParsedExactly` | services/egress_policy.py:142-162 | the host patterns are exactly the entries with text that no network can be read from, the networks those of the others |
| `Egress.AcceptedExactly` | services/egress_policy.py:194-233 | a connection is accepted exactly if rules are inactive, or no address is denylisted, a list is there, the mandatory one too, and each non-empty list names the host or holds an address from the first to the last of a block of its version |
| `Egress.RefusedFor` | services/egress_policy.py:205-233 | a refusal names the first of these tests that failed |
| `Egress.BuildRules` | services/egress_policy.py:236-251 | the operator switches as configured, the lists parsed, no mandatory tenant list |
| `Egress.BuildCodeEgressRules` | services/egress_policy.py:254-279 | always active, deny by default, tenant list mandatory; that list is empty exactly if all its entries are |
| `Egress.FirstDisallowed` | services/egress_policy.py:205-210 | none is found exactly if no address is on the denylist |
| `Egress.SelectPinnedIp` | services/egress_transport.py:119-130 | the first address that passes alone, or none passes |
| `Egress.HandleRequest` | services/egress_transport.py:85-108 | inactive rules connect as asked; active ones to the first address that is accepted alone, if all of them together are accepted, and otherwise not at all |
| `Egress.ClearsAlone` | services/egress_policy.py:194-233 | passing alone means: not denylisted, and in every non-empty list by host or network |
| `Egress.NoGrantNoEgress` | services/egress_policy.py:254-279 | rules of code egress built from blank tenant entries accept no host and no address, whatever the global list |
| `Egress.ResolveRules` | services/egress_transport.py:66-83 | static rules win; code egress gets its own rules even without settings; other transports without settings enforce nothing |
| `Egress.ConnectDownstream` | services/egress_transport.py:66-108 | a request to a downstream server is passed on as it is exactly if nothing is enforced; otherwise it goes to the first address off the denylist that each list with entries grants, if every address is off it |
| `Egress.ConnectFromCode` | services/egress_transport.py:66-108 | from the configured entries to the connection: sandbox code is never passed on unchecked, is blocked without a tenant entry, and is connected exactly if no address is denylisted and one is granted by the tenant's entries and by the global ones, if any; to the first such |
| `Egress.SelectionSucceeds` | services/egress_transport.py:94-108 | whatever addresses an accepted host resolves to, one can be pinned: exactly for rules where a list is empty, names the host, or has all its usable addresses in the other |
| `Egress.OneListByNameSuffices` | services/egress_transport.py:94-108 | it succeeds whenever there is an address and one list is empty or names the host |
| `Egress.AcceptedButNotPinned` | services/egress_policy.py:226-233 | two lists met by different addresses: accepted, and nothing to pin |
| `Egress.CeilingIntersects` | services/egress_policy.py:226-233 | with both lists set, a connection is accepted exactly if either list alone accepts it |
| `PendingActions.StatusMoves` | services/pending_actions.py:74-87 | in every run a status moves only from pending to approved or rejected and from approved to consumed; call and expiry never change, and a removed action does not come back |
| `PendingActions.ConsumedOnce` | services/pending_actions.py:74-89 | consuming succeeds at most once per action |
| `PendingActions.ConsumptionWasApproved` | services/pending_actions.py:72-89 | whoever consumes makes the call the action was created for, before it expires, after somebody other than the requester approved it |
| `PendingActions.RejectedForGood` | services/pending_actions.py:124-167 | after a rejection no continuation of the run consumes or approves the action |
| `PendingActions.KeptMeanwhile` | services/pending_actions.py:74-87 | a document changes only by a decision or a consumption that goes through, or by its removal |
| `PendingActions.ApprovedCallGoesThrough` | services/pending_actions.py:72-89 | an action that somebody else approves in time lets its call through in time, whatever happens to other actions |
| `PendingActions.ConsumeReasonIsReal` | services/pending_actions.py:91-109 | the reason reported for a refused consume is the first test the document of that tenant misses, and not approved if it misses none any more |
| `PendingActions.DecisionReasonIsReal` | services/pending_actions.py:169-179 | the same for a refused decision |
| `PendingActions.PendingActionService.CreatePendingAction` | services/pending_actions.py:35-60 | a new action is pending and expires after its lifetime, which is at least a second |
| `PendingActions.PendingActionService.TryDecide` | services/pending_actions.py:155-167 | the update goes through exactly for a pending, unexpired action of the tenant that somebody else requested |
| `PendingActions.PendingActionService.DecideAction` | services/pending_actions.py:144-179 | the outcome is the decision, or the reason the document gives for refusing it |
| `PendingActions.PendingActionService.TryConsume` | services/pending_actions.py:72-89 | the update goes through exactly for an approved, unexpired action of this very call |
| `PendingActions.PendingActionService.ConsumeApprovedAction` | services/pending_actions.py:63-109 | the outcome is ok, or the reason the document gives for refusing |
| `Guardrails.DigitList` | services/guardrails.py:125-128 | the digits of the card number, in order |
| `Guardrails.Checksum` | services/guardrails.py:129-136 | the left-to-right loop computes the Luhn sum counted from the right |
| `Guardrails.LuhnChecksumIsValid` | services/guardrails.py:125-137 | valid exactly if there are 13 to 19 digits and the sum over their positions is a multiple of ten: from the right, odd places count as they are, even places as the digit sum of the double |
| `Guardrails.SumOfTerms` | services/guardrails.py:129-136 | the Luhn sum is the sum over positions: the digit itself at odd places from the right, the digit sum of its double at even ones |
| `Guardrails.DigitsRead` | services/guardrails.py:126 | each character 0 to 9 adds its digit, any other nothing |
| `Guardrails.KnownCard` | services/guardrails.py:125-137 | 4111111111111111 has checksum 30 and is valid |
| `Guardrails.SingleErrorDetected` | services/guardrails.py:129-137 | changing one digit of a passing string always fails it |
| `Guardrails.TranspositionDetected` | services/guardrails.py:129-137 | swapping two different adjacent digits fails it unless they are 0 and 9 |
| `Guardrails.CheckDigitUnique` | services/guardrails.py:129-137 | each prefix has exactly one check digit that passes |
| `Guardrails.MistypedCardRejected` | services/guardrails.py:125-137 | one wrong digit in a valid card number is caught however the number is grouped |

## Left out

- Subprocesses, the wasm engine, resource limits, sockets, DNS, HTTP and FastMCP clients: their
  outcomes are inputs.
- Vector, text and filter queries of the database, encryption, and the lookup side of the semantic
  cache (`services/cache_manager.py:96-166`): no property here depends on them.
- Admin models, settings parsing, seeding, user interface, metrics, tracing and logging.
- The worker and future objects of the pool and of the embedding service are records in maps,
  keyed by a number that stands for the object; aliasing of the objects is that of the keys.
- SandboxPool.Conservation: says nothing of a closed pool, because `start` does not look at
  the closed flag between spawns and a lease that ends after closing still requeues its worker.
- SandboxPool.NeverHandedAgain: says nothing of a closed pool, for the same reason.
- The acquire timeout of a pool submit is a step that may come at any time; progress of nested
  calls in the pooled executor rests on that timeout and is not claimed.
- SandboxExecutor.SomeRunCanStep: any waiting run may take a free slot; which of them does is the
  semaphore's queue, which is not modelled, so no run is promised a turn while new ones keep coming.
- SandboxExecutor.GuardsHold: the pip and worker time budgets of a run are not modelled.
- CallTree.CallTreeBounded: the response-size limit, the encoding of arguments and results and the
  time budgets of nested calls are not modelled; a run that is killed behaves like one that asks
  for nothing more.
- Responses of the dispatcher are names for the error kinds; their messages are not modelled.
- SingleFlight.AtMostOneLeader: counts live futures only; a future whose leader was cancelled stays
  unresolved beside the next one (`CancelledLeaderStrands`).
- In the single-flight model a cached vector may vanish at any time; when it does is the subject of
  `ttl_lru_cache.dfy`.
- EmbeddingBreaker.OpenAfterTrip: the backoff sleeps are not timed; attempts of different calls may
  interleave in any way.
- HybridFusion.PromotionNeverLowers: scores are exact, so ties caused by floating-point rounding
  are not modelled.
- ToolAuthorization.DiscoveryImpliesInvocation: the caching of the tenant overlay is left out, both
  sides see the same overlay.
- TenantStatus.CachedIsRecent: reasons, timestamps and the other fields of the control document are
  left out, and the settings of a run do not change.
- UsageMetering.OvershootBound: the quota and the period stay the same during a run.
- Billing events and their summary (`services/usage_metering.py:184-250`).
- The static analysis of sources is a function from a source to its references, in the sorted order
  the exporter queues them in; so are the rendered files apart from their paths.
- ServerExporter.ToolIndex: names come stripped, and entries of the wrong type are left out.
- ExportNaming.SlugIsModuleName: ASCII names only; other letters stay letters in the program.
- Environment prefixes of an export, its zip file and its scaffolding.
- CacheMigration.ReembedStaleEntries: documents have an `_id`, and nobody but the migration itself
  writes meanwhile; expiry times of re-embedded entries are left out, and a write that fails.
- CacheMigration.PurgeStaleEntries: the fallback for documents without an `_id` is left out.
- Egress.ParseList: entries come trimmed and in lower case; how a host is lower-cased, how an address or a network is read and
  how a pattern matches is left to the address library.
- Egress.HandleRequest: the Host header and the TLS name of the rewritten request are left out, and
  a host that does not resolve is an input of the caller.
- PendingActions.ConsumedOnce: identifiers are never issued twice; the expiry index of the database
  may remove an expired action at any time.
- Guardrails.DigitList: ASCII digits only.
- Regular expressions and redaction of the guardrails, and their pattern index.
- Registry watching, mounting and the freshness of clients in the proxy registry.
