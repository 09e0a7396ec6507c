# Verified model of the vahan360 ingest platform

Dafny models of the parts of the repository where steps interleave, messages are repeated, or two programs must agree
on a format, with proofs of what those parts promise. `dafny verify dfyconfig.toml` checks everything.

The JavaScript and TypeScript sources run on one thread per process, so code between two `await`s is one step. Each
concurrent component is a state machine over such steps: a `State`, an `Event` per step, `Enabled` and `Next`, and an
invariant kept by every step and therefore by every run. Components whose source updates variables in place also have
a class whose methods change the same fields and are proved to move the state exactly as `Next` (or the matching
specification function) says.

| file | what it models |
|---|---|
| `TenantQuota.dfy` | per-tenant in-process quota with its waiter queue |
| `BrowserPool.dfy` | one pool engine: slots, launches, contexts, remote leases, waiters |
| `QuotaAndPool.dfy` | the quota wrapped around any number of pools |
| `LeaseQuota.dfy`, `LeaseClock.dfy`, `LeaseLag.dfy` | the distributed per-tenant cap on a shared Redis counter, and its key life against leases and against operations under way |
| `LeaseRegistry.dfy` | pool keys, and the lease server's lease map with its per-tenant index |
| `EnqueueProtocol.dfy` | POST with an idempotency key |
| `PersistArtifacts.dfy`, `IngestJob.dfy` | raw rows of a job, and the life of job rows under at-least-once delivery |
| `PayloadRows.dfy` | those rows read off the payload: which there are and what they hold |
| `JobMessages.dfy`, `ReplayQueues.dfy`, `ReplayForest.dfy` | queue messages, dead letters, the two counted replay paths and their termination |
| `StuckJobs.dfy` | a job row and the persist child its queue keeps |
| `FailedJobReplay.dfy` | the third replay path, which starts the counter over, and its redaction |
| `ComplianceSnapshot.dfy`, `SnapshotRaces.dfy` | the merged compliance snapshot, serially and under concurrent ingests |
| `ComplianceFacts.dfy` | what its compliance fields say of the last payloads |
| `RiskScore.dfy` | the risk score that reads it |
| `SelectorHealth.dfy` | the pruned failure window and its alerts |
| `Sse.dfy`, `JsonReader.dfy` | the event stream and the console's incremental parser, and a JSON reader for its payloads |
| `Csv.dfy`, `ComplianceExport.dfy` | the CSV printers against an RFC 4180 parser, and the batched export |
| `EventPaging.dfy` | cursor paging and the polling tick over a growing log |
| `StreamRaces.dfy` | the same tick as a read and a write step, when ticks overlap |
| `Basics.dfy`, `Strings.dfy` | shared vocabulary |

Assumptions the models make: limits read from the environment stay constant during a run; SHA-256 is injective on the
values hashed; the database's unique constraints hold and raise P2002; Redis INCR and DECR are atomic; a queue ignores
an add whose job id it still keeps; random UUIDs are fresh where a model says so; in `LeaseClock` the clock is shared,
counts whole milliseconds, and collection timers fire on time; in `SnapshotRaces.RowsRightExactly` two ingests of one
kind for a vehicle differ in their job or time; in `EventPaging` and `StreamRaces` events become visible in the order
of their ids. Clocks, random ids, the outcome of I/O, the replies that get lost, the portal page parser and the
language's conversion of other values to numbers and text are parameters.

Where code and documentation disagree the model follows the code. `README.md` of the repository says the admin replay
uses the retry worker's routing rules; it ignores the letter's source queue, and `JobMessages.AdminRoutesLikeRetry`
says exactly when the two agree. Other promises turn out to hold only under a condition. For each there is a
failing run and a condition:

| promise | fails in | condition |
|---|---|---|
| the reported number counts the window | `SelectorHealth.ClockStepBackUndercounts` | `SelectorHealth.CountsForEveryClock` |
| the tenant cap survives the expiry of its key | `LeaseLag.NoSettingIsSafe` | `LeaseQuota.ExpiryBreaksCapExactly`, `LeaseClock.LeasesOutlivedExactly`, `LeaseLag.CountedOutlivedExactly` |
| no waiting caller is forgotten | `BrowserPool.FailedLaunchesStrandWaiter` | `BrowserPool.WakeableExactly`, `BrowserPool.StrandedExactly`, `BrowserPool.RunStrandsExactly` |
| a browser stays within its context cap | `BrowserPool.ContextCapBroken` | `BrowserPool.OverfillsExactly` |
| a succeeded job stays so | `IngestJob.SuccessIsNotFinal` | `IngestJob.SuccessKeptExactly`, `IngestJob.SucceededExactly` |
| an accepted job is queued | `EnqueueProtocol.AcceptedRetryMayStayUnqueued` | `EnqueueProtocol.QueuedIffOwnAddLanded` |
| an accepted replay is queued | `ReplayQueues.ReplayOfRetainedJobIsLost` | `ReplayQueues.AcceptedReplayIsQueuedIff` |
| a rerun finishes its job | `StuckJobs.ReplayAfterDeadChildSticks` | `StuckJobs.RerunCanFinishExactly`, `ReplayQueues.RerunQueuesPersistExactly` |
| replays end | `ReplayForest.NoCapNoEnd`, `ReplayForest.KeptLettersNoEnd` | `ReplayForest.FractionalCapIsNone`, `ReplayForest.ReplaysTerminate` |
| the stored snapshot reflects every ingest | `SnapshotRaces.TwoIngestRace` | `SnapshotRaces.RowsRightExactly` |
| a woken caller enters | `TenantQuota.EveryQuotaPassesOver` | `TenantQuota.WokenEntersExactly` |
| the stream shows each event once | `StreamRaces.OverlapRepeats` | `StreamRaces.RepeatsExactly` |
| a page request is answered | `EventPaging.PageFailsExactly` | `EventPaging.PageFailsExactly` |

## Model

| member | source | states |
|---|---|---|
| TenantQuota.QuotaIsFirstPositive | apps/worker-ingest/src/lib/tenantQuota.js:69-87 | a tenant's limit is the first positive number among its own entry, the default entry and the scalar, rounded down, and there is none without one |
| TenantQuota.QuotaDisabledExactly | apps/worker-ingest/src/lib/tenantQuota.js:69-87 | a tenant has no limit if and only if no configured candidate is positive or the first positive one is below one |
| TenantQuota.StepKeepsInv | apps/worker-ingest/src/lib/tenantQuota.js:175-227 | every step (enter, barge, wake, queue again, time out, fail, release) keeps: the counter equals the calls acquiring, holding or releasing and never passes the quota, the queue holds exactly the unsettled waiters, and waiters exist only when active plus woken calls fill the quota |
| TenantQuota.ReachableStates | apps/worker-ingest/src/lib/tenantQuota.js:97-157 | safety, conservation and no lost wakeup in every state any interleaving reaches; the calls counted never pass the configured limit |
| TenantQuota.NewCallExactly | apps/worker-ingest/src/lib/tenantQuota.js:193-203 | under a limit a new call is counted if and only if fewer calls are counted than the configuration allows; else it is refused and noted, or goes to the end of the queue |
| TenantQuota.RejectionsCounted | apps/worker-ingest/src/lib/tenantQuota.js:117-146 | over every run a tenant's rejection number is the number of its calls turned away: refused at a filled limit, or timed out |
| TenantQuota.DecrementHandsOver | apps/worker-ingest/src/lib/tenantQuota.js:102-114 | giving back lowers the counter by exactly one, the clamp never acts, and the head of the queue is an unsettled call that is woken by this step |
| TenantQuota.OtherTenantsUntouched | apps/worker-ingest/src/lib/tenantQuota.js:33-40 | a step of one tenant leaves every other tenant's counter, queue and rejections alone |
| TenantQuota.StepAdvancesWaiter | apps/worker-ingest/src/lib/tenantQuota.js:107-114 | each step wakes the caller at position k or leaves it no further back, one place nearer when its tenant gives back |
| TenantQuota.WaiterIsWoken | apps/worker-ingest/src/lib/tenantQuota.js:102-157 | a caller at position k that does not time out is woken in every run with more than k give-backs of its tenant |
| TenantQuota.WokenEntersExactly | apps/worker-ingest/src/lib/tenantQuota.js:193-203 | being woken is not entering: a woken call enters at its loop head if and only if the entries since it was woken are fewer than the free slots then and the give-backs since |
| TenantQuota.EveryQuotaPassesOver | apps/worker-ingest/src/lib/tenantQuota.js:193-203 | for every quota and every n there is a run from the empty tables that gives back n slots and never lets the first waiter enter: newcomers pass it |
| TenantQuota.QuotaTable.SignalNextWaiter | apps/worker-ingest/src/lib/tenantQuota.js:108-114 | the maps move as the specified signal |
| TenantQuota.QuotaTable.DecrementActive | apps/worker-ingest/src/lib/tenantQuota.js:102-105 | counter and queue move as the specified give-back |
| TenantQuota.QuotaTable.RunLoopHead | apps/worker-ingest/src/lib/tenantQuota.js:193-203 | at the loop head a call enters, is rejected or queues, as specified |
| TenantQuota.QuotaTable.WithQuota | apps/worker-ingest/src/lib/tenantQuota.js:175-201 | a new call is the Start step, whose limit is that of QuotaIsFirstPositive |
| TenantQuota.QuotaTable.ResumeWaiter | apps/worker-ingest/src/lib/tenantQuota.js:148-153 | a woken call is the Resume step: it checks the limit again |
| TenantQuota.QuotaTable.WaitTimeout | apps/worker-ingest/src/lib/tenantQuota.js:135-146 | the timer is the Timeout step: out of the queue, one more rejection |
| TenantQuota.QuotaTable.AcquireSettled | apps/worker-ingest/src/lib/tenantQuota.js:205-212 | a settled acquire is the Acquired step, or gives back on failure |
| TenantQuota.QuotaTable.CallRelease | apps/worker-ingest/src/lib/tenantQuota.js:214-220 | calling release is the ReleaseCalled step: nothing is given back yet |
| TenantQuota.QuotaTable.ReleaseDone | apps/worker-ingest/src/lib/tenantQuota.js:221-223 | the finally block is the ReleaseSettled step |
| BrowserPool.Pick | packages/browser-pool/src/index.js:144-153 | a slot is picked if and only if some open slot has capacity; none with capacity has fewer contexts, nor as many and an earlier last use |
| BrowserPool.VacateKeepsInv | packages/browser-pool/src/index.js:265-266 | giving a context back lowers the slot's counter by exactly one: the clamp never acts |
| BrowserPool.ReleaseLeaseKeepsInv | packages/browser-pool/src/index.js:307-316 | the same for a remote lease |
| BrowserPool.LaunchKeepsInv | packages/browser-pool/src/index.js:160-191 | a settled launch leaves one launch fewer in flight, without the clamp, and keeps the browser limit |
| BrowserPool.StepKeepsInv | packages/browser-pool/src/index.js:224-316 | every step short of shutdown keeps browsers plus launches within the limit, exact slot counters, an exact waiter queue and a consistent slot table |
| BrowserPool.ReachableStates | packages/browser-pool/src/index.js:102-316 | in every reachable state a slot's counter is its opening, held and closing contexts plus its remote leases |
| BrowserPool.TurnExactly | packages/browser-pool/src/index.js:224-239 | a call gets a browser if and only if an open one has room, and then one no other with room undercuts; else it launches, is skipped or throws by the memory limits if and only if fewer browsers exist or are launched than allowed; else it goes to the end of the queue |
| BrowserPool.ClosesBrowserExactly | packages/browser-pool/src/index.js:207-277 | a step starts to close an open browser if and only if nothing is left on it and another browser exists, and it is the idle clean-up or the end of a context on a browser with at least the recycling number of contexts |
| BrowserPool.UsesCounted | packages/browser-pool/src/index.js:241-266 | over every run a browser's use count is the number of contexts requested on it, leases not counted, and its last use is the time of the last step that touched it |
| BrowserPool.RecycledExactly | packages/browser-pool/src/index.js:260-277 | after every run closing a context recycles its browser if and only if nothing is left on it, another browser exists, and that run requested at least the recycling number of contexts on it |
| BrowserPool.LoadMovesExactly | packages/browser-pool/src/index.js:241-316 | every step moves the load of every browser by exactly the place it takes or gives back there |
| BrowserPool.OverfillsExactly | packages/browser-pool/src/index.js:224-245 | a step takes a browser past its context cap if and only if it counts a context or lease that was picked while there was room on a browser that is full by now |
| BrowserPool.ContextCapBroken | packages/browser-pool/src/index.js:224-245 | whatever the cap, and for every n, some run opens n contexts on one browser: calls that pick before any of them counts get the same one |
| BrowserPool.ReleaseAgainChangesNothing | packages/browser-pool/src/index.js:256-259 | releasing a context or a lease again, after any run in between, changes nothing |
| BrowserPool.LaunchFailureStrandsExactly | packages/browser-pool/src/index.js:188-190 | a failed launch strands the queue if and only if calls wait and nothing else is left that could signal: no other call in progress, lease or closing browser, and at most one browser, which the idle cleanup leaves alone |
| BrowserPool.SkippedLaunchStrandsExactly | packages/browser-pool/src/index.js:231-237 | a launch refused at the soft memory limit strands its own call if and only if nothing else is left that could signal |
| BrowserPool.HardLimitStrandsExactly | packages/browser-pool/src/index.js:122-129 | so does a launch refused at the hard limit, if and only if calls wait, no browser has room and there is room to launch |
| BrowserPool.StrandedExactly | packages/browser-pool/src/index.js:155-277 | a step from a state without stranded callers strands one if and only if it is one of these three under its condition |
| BrowserPool.RunStrandsExactly | packages/browser-pool/src/index.js:155-277 | a run meets a state with stranded callers if and only if one of its steps meets its condition |
| BrowserPool.QuietRunStrandsNobody | packages/browser-pool/src/index.js:155-277 | a run in which no call ends without signalling never strands a caller |
| BrowserPool.StrandedForGood | packages/browser-pool/src/index.js:155-316 | from a stranded state every run without new calls ends in that very state |
| BrowserPool.WakeableExactly | packages/browser-pool/src/index.js:155-316 | in every state that keeps the invariant, for every call that waits or is about to: some run without new calls wakes it, if and only if the engine still has a call in progress, a lease, a closing browser or a second browser |
| BrowserPool.WaitersWakeExactly | packages/browser-pool/src/index.js:155-316 | with no refused launch under way, every waiting call can be woken if and only if the state is not stranded |
| BrowserPool.FailedLaunchesStrandWaiter | packages/browser-pool/src/index.js:188-190 | for every number of allowed browsers there is a run that strands a caller: all launches fail before it |
| BrowserPool.StrandingNeedsSilentEnd | packages/browser-pool/src/index.js:231-237 | and only a call that ends without signalling can strand the queue |
| BrowserPool.PoolEngine.SignalNextWaiter | packages/browser-pool/src/index.js:155-158 | shifts and wakes the first waiter |
| BrowserPool.PoolEngine.PickOrCreateSlot | packages/browser-pool/src/index.js:224-239 | one turn of the loop: reuse, launch, throw at the hard memory limit, or wait |
| BrowserPool.PoolEngine.LaunchSettled | packages/browser-pool/src/index.js:178-190 | the end of a launch, pushed or failed |
| BrowserPool.PoolEngine.RequestContext | packages/browser-pool/src/index.js:241-249 | a slot is occupied before the context exists |
| BrowserPool.PoolEngine.ContextSettled | packages/browser-pool/src/index.js:247-254 | the context is open, or its place is given back and a waiter woken |
| BrowserPool.PoolEngine.LeaseRemoteBrowser | packages/browser-pool/src/index.js:286-302 | a lease occupies its slot unless the endpoint cannot be read |
| BrowserPool.PoolEngine.ReleaseRemoteLease | packages/browser-pool/src/index.js:307-316 | answers whether the lease was known, and gives it back once |
| BrowserPool.PoolEngine.ContextCloseSettled | packages/browser-pool/src/index.js:260-277 | recycles the browser or wakes a waiter, as RecycledExactly says which |
| BrowserPool.PoolEngine.BrowserCloseSettled | packages/browser-pool/src/index.js:200-204 | removes the slot and wakes a waiter |
| QuotaAndPool.StepKeepsInv | apps/worker-ingest/src/lib/browserManagerClient.js:30-38 | quota and pool steps together keep both invariants, and a pool never serves a call of a limited tenant that the quota does not count |
| QuotaAndPool.TenantContextsBounded | apps/worker-ingest/src/lib/browserManagerClient.js:30-38 | in every run a tenant's open in-process contexts over all its pools are at most the first positive limit configured for it, rounded down |
| QuotaAndPool.CallReachesPoolExactly | apps/worker-ingest/src/lib/browserManagerClient.js:30-38 | a new call starts in its pool if and only if its tenant has no limit or fewer calls counted than the limit, and no other pool moves |
| LeaseQuota.StepKeepsInv | apps/worker-ingest/src/browserManagerServer.js:213-259 | every INCR, roll-back, DECR, lost command, crash and timely expiry keeps leases plus pending operations within the cap; DECR never goes below zero |
| LeaseQuota.CapHoldsEverywhere | apps/worker-ingest/src/browserManagerServer.js:213-259 | over all replicas and interleavings a tenant's live leases stay within the maximum and the counter is at least leases plus operations plus rejections to roll back |
| LeaseQuota.GivenBackAtMostOnce | apps/worker-ingest/src/browserManagerServer.js:391-405 | a lease gives its quota back at most once however many releases race for it |
| LeaseQuota.CleanRunIsExact | apps/worker-ingest/src/browserManagerServer.js:224-259 | when nothing is lost the counter is exact |
| LeaseQuota.RefusedExactlyAtCap | apps/worker-ingest/src/browserManagerServer.js:226-230 | after a clean run an acquire is refused if and only if leases, operations in flight and pending roll-backs already fill the cap |
| LeaseQuota.ExpiryBreaksCapExactly | apps/worker-ingest/src/browserManagerServer.js:224-259 | from any state that keeps the invariant, for any cap and tenant, an expiry of the counter key can be followed by a run without further faults that exceeds the cap, if and only if the tenant has a lease, a pending operation or a roll-back |
| LeaseClock.StepKeepsInv | apps/worker-ingest/src/browserManagerServer.js:224-235 | with grant times, key deadlines and the collection timer in the state, every step keeps: a live lease is collected less than one interval after its deadline and its key lives a whole key life from its grant |
| LeaseClock.LeasesOutlivedExactly | apps/worker-ingest/src/browserManagerServer.js:583-589 | over all runs whose browsers are leased within a given wait of the grant, and whatever other limits they keep, no lease meets the expiry of its counter key if and only if wait, lease time and collection interval together fit into the key life |
| LeaseClock.SafeSettings | apps/worker-ingest/src/browserManagerServer.js:20-23 | that condition in settings: it holds for every lease time up to 19.2 hours when browsers come at once, and at the default of 120 s for waits up to 97.5 minutes |
| LeaseLag.StepKeepsLagInv | apps/worker-ingest/src/browserManagerServer.js:224-259 | with limits on browser waits and on Redis round trips, and INCRs kept a gap away from the key deadline, every step keeps: the key of an operation under way outlives what the operation may still take |
| LeaseLag.CountedOutlivedExactly | apps/worker-ingest/src/browserManagerServer.js:224-259 | over all runs within such limits no expiry ever meets a lease or an operation of its tenant, if and only if wait, lag, lease time and collection interval fit into the key life and the gap exceeds the lag |
| LeaseLag.CapHoldsOverTime | apps/worker-ingest/src/browserManagerServer.js:224-259 | under that condition the cap holds in every run within the limits, with nothing assumed about its expiries |
| LeaseLag.NoSettingIsSafe | apps/worker-ingest/src/browserManagerServer.js:226-234 | the server keeps no gap, so under every setting, with browsers and Redis answering at once, some run has an INCR counted on a key that goes before its PEXPIRE, and then the cap can be exceeded |
| LeaseClock.StuckOperationMeetsExpiry | apps/worker-ingest/src/browserManagerServer.js:465-516 | without a limit on the wait for a browser, an operation that waits a whole key life meets the expiry under every setting, and then the cap can be exceeded |
| PoolKeys.NormalizeSegment | packages/browser-pool/src/index.js:55-59 | a segment has only allowed characters, at most 128 of them, and at least one |
| PoolKeys.NormalizeTwice | packages/browser-pool/src/index.js:55-59 | normalising a segment again changes nothing |
| PoolKeys.SegmentIgnoresCase | packages/browser-pool/src/index.js:55-59 | texts that differ in letter case alone have the same segment |
| PoolKeys.SegmentOfName | packages/browser-pool/src/index.js:55-59 | a name of letters, digits, dots, underscores and hyphens becomes its lower-case form, cut after 128 characters; so different lower-case names stay different |
| PoolKeys.RunsCollapse | packages/browser-pool/src/index.js:58 | each whole run of other characters becomes one underscore, and what is clean around it stays |
| PoolKeys.EngineTenantExactly | packages/browser-pool/src/index.js:74-88 | the engine's tenant is the first that is not blank of the one asked for, the environment's slug and its id, trimmed, else the default |
| PoolKeys.PoolKeySeparates | packages/browser-pool/src/index.js:65-69 | two tenant and portal pairs share an engine if and only if both segments normalise alike |
| PoolKeys.StoredKeyIsEngineKey | packages/browser-pool/src/index.js:74-88 | for a named tenant the key the server stores is the key under which the engine leases |
| LeaseRegistry.IncrKeepsIndex | apps/worker-ingest/src/browserManagerServer.js:92-94 | counting a new lease keeps the index equal to the live leases per tenant, without zero entries |
| LeaseRegistry.DecrKeepsIndex | apps/worker-ingest/src/browserManagerServer.js:97-105 | so does uncounting a removed one |
| LeaseRegistry.EngineKeyStored | apps/worker-ingest/src/browserManagerServer.js:465-516 | the stored key is the engine's whatever the environment's slugs are |
| LeaseRegistry.Registry.LocalTenantDecr | apps/worker-ingest/src/browserManagerServer.js:97-105 | the tenant's count falls by one and disappears at zero |
| LeaseRegistry.Registry.Grant | apps/worker-ingest/src/browserManagerServer.js:510-516 | one lease is added under the engine's key, the index stays exact |
| LeaseRegistry.Registry.TakeForRelease | apps/worker-ingest/src/browserManagerServer.js:391-398 | only the first caller finds the lease; the index stays exact |
| LeaseRegistry.Registry.CollectExpired | apps/worker-ingest/src/browserManagerServer.js:583-589 | a collection takes exactly the leases past their deadline |
| EnqueueProtocol.ResolveIdempotencyKey | apps/api-express/src/routes/scrapeJobs.js:150-156 | the key is trimmed and not empty, and absent if and only if header and body are both blank |
| EnqueueProtocol.HeaderWins | apps/api-express/src/routes/scrapeJobs.js:150-156 | whenever the header says something it alone decides, whatever the body holds; only else does the body |
| EnqueueProtocol.StepKeepsInv | apps/api-express/src/routes/scrapeJobs.js:296-466 | lookup, create, lost replies, recovery, add and abort of any concurrent requests keep the index exact, adds single and answers true |
| EnqueueProtocol.OneJobPerKey | apps/api-express/src/routes/scrapeJobs.js:296-466 | per key at most one row and one queue add; every 202 answer carries that row's id, and at most one says the job is new |
| EnqueueProtocol.RefusedExactly | apps/api-express/src/routes/scrapeJobs.js:296-466 | over every run a request is refused if and only if it dies, its insert fails or loses its reply, its id is taken and it has no key, or the key it recovers by has no job; coming second with a key is none of these |
| EnqueueProtocol.UnkeyedRequestsOwnTheirJobs | apps/api-express/src/routes/scrapeJobs.js:327-339 | without a key accepted requests never share a job |
| EnqueueProtocol.RetriesNeverEnqueue | apps/api-express/src/routes/scrapeJobs.js:296-324 | once the creating request is over, no later step adds its job to the queue |
| EnqueueProtocol.QueuedExactly | apps/api-express/src/routes/scrapeJobs.js:350-376 | over every run a job reaches the queue if and only if its creator's own add landed |
| EnqueueProtocol.QueuedIffOwnAddLanded | apps/api-express/src/routes/scrapeJobs.js:350-410 | once the creator is past its add, answered or not, the job is in the queue after every continuation, once, if and only if the creator's own add landed |
| EnqueueProtocol.AcceptedRetryMayStayUnqueued | apps/api-express/src/routes/scrapeJobs.js:350-376 | when the first add fails, a retry is accepted with the same job and the job is never queued |
| EnqueueProtocol.JobStore.InsertRow | apps/api-express/src/routes/scrapeJobs.js:328-339 | a row is created if and only if neither its id nor its key is taken |
| EnqueueProtocol.JobStore.Post | apps/api-express/src/routes/scrapeJobs.js:296-466 | the handler's answer and effect: known key, rival creating first, fresh create, refusal |
| PersistArtifacts.RecordsExactly | apps/worker-ingest/src/persistJobArtifacts.js:196-198 | the records are as many as the items that are objects, and the object at any position is the record after as many as there are objects before it |
| Json.TextAtExactly | apps/worker-ingest/src/persistJobArtifacts.js:29-59 | a text field yields the trimmed text at the first name the object has, and nothing when there is none or it holds no text |
| PersistArtifacts.HashTellsRowsApart | apps/worker-ingest/src/persistJobArtifacts.js:240-277 | every row of a job is hashed with the job's id, and equal hashes within a job mean equal rows, for all kinds |
| PersistArtifacts.RawTables.TryCreate | apps/worker-ingest/src/persistJobArtifacts.js:169-185 | a create under a taken hash changes nothing and is reported as a duplicate |
| PersistArtifacts.RawTables.CreateRecords | apps/worker-ingest/src/persistJobArtifacts.js:200-257 | the record loop executes a prefix of the planned creates and, when it ends, reports each once |
| PersistArtifacts.RawTables.CreateBatch | apps/worker-ingest/src/persistJobArtifacts.js:196-286 | records, or the single row of an empty batch |
| PersistArtifacts.RawTables.PersistBatch | apps/worker-ingest/src/persistJobArtifacts.js:187-386 | a batch with its district summary, cut short anywhere |
| PersistArtifacts.RawTables.PersistOne | apps/worker-ingest/src/persistJobArtifacts.js:410-436 | the single-record kinds, cut short anywhere |
| PersistArtifacts.RawTables.PersistIngestArtifacts | apps/worker-ingest/src/persistJobArtifacts.js:156-672 | for every kind and payload and any point of failure the tables have a prefix of the job's plan, and a finished run's summary is exact; what the plan holds is PayloadRows |
| PersistArtifacts.FilterRecords | apps/worker-ingest/src/persistJobArtifacts.js:196-198 | the loop keeps exactly the items that are objects, as many as there are, in order |
| PayloadRows.WritesNothingExactly | apps/worker-ingest/src/persistJobArtifacts.js:156-672 | the step writes nothing if and only if the payload does not name its subject: both dates as text, a registration or a consigner that is not blank; a challan batch always writes |
| PayloadRows.EntriesExactly | apps/worker-ingest/src/persistJobArtifacts.js:288-672 | a summary table is touched if and only if the payload is usable and the kind, and for a date range a district that is not blank, asks for it |
| PayloadRows.BatchRowsExactly | apps/worker-ingest/src/persistJobArtifacts.js:196-372 | a usable batch stores every object it lists, the n-th object as the n-th write, and a batch without objects exactly one row |
| PayloadRows.BatchRowSet | apps/worker-ingest/src/persistJobArtifacts.js:196-372 | a row belongs to the plan of a batch if and only if it is that of an object the payload lists, or of an empty batch |
| PayloadRows.SucceededBatchStored | apps/worker-ingest/src/index.js:800-836 | over any deliveries, deaths and redeliveries, once a batch job was marked succeeded its stored rows are exactly those of the objects its payload lists |
| PayloadRows.KhananRowHolds | apps/worker-ingest/src/persistJobArtifacts.js:213-254 | the row of a date-range record goes to its table with the dates asked for, the district, the correlation and the record |
| PayloadRows.KhananRecordHolds | apps/worker-ingest/src/persistJobArtifacts.js:201-238 | the record keeps every text field under its own name, read by the names in the order tried, or null |
| PayloadRows.SourceDistrictHolds | apps/worker-ingest/src/persistJobArtifacts.js:227-229 | a record's district is its own where it names one, else the request's |
| PayloadRows.RecordRegHolds | apps/worker-ingest/src/persistJobArtifacts.js:201-203 | a record's vehicle is read by its names in the order the source tries them |
| PayloadRows.KhananKeeps | apps/worker-ingest/src/persistJobArtifacts.js:221-238 | vehicle, district and quantity are kept beside the texts |
| PayloadRows.ChallanRowHolds | apps/worker-ingest/src/persistJobArtifacts.js:314-356 | the row of a challan goes to its table with the challan |
| PayloadRows.ChallanRecordHolds | apps/worker-ingest/src/persistJobArtifacts.js:320-340 | the same for the text fields of a challan |
| PayloadRows.ChallanKeeps | apps/worker-ingest/src/persistJobArtifacts.js:320-340 | and for its vehicle and amount |
| PayloadRows.ChallanHeader | apps/worker-ingest/src/persistJobArtifacts.js:301-319 | the cursor is kept as text unless it is absent, null or empty, the batch size only when it is a number |
| PayloadRows.AmountsHold | apps/worker-ingest/src/persistJobArtifacts.js:35-39 | amounts are kept only when they are numbers and not negative |
| PayloadRows.EmptyRowHolds | apps/worker-ingest/src/persistJobArtifacts.js:259-286 | the row of an empty batch goes to its table and counts zero |
| PayloadRows.VehicleRowHolds | apps/worker-ingest/src/persistJobArtifacts.js:387-604 | the row of a vehicle job goes to the table of its kind with registration, page probe and normalised section |
| PayloadRows.DigestRowHolds | apps/worker-ingest/src/persistJobArtifacts.js:605-646 | the placeholder row of a digest names its consigner |
| PayloadRows.RegOfParts | apps/worker-ingest/src/persistJobArtifacts.js:6-9 | a registration is that of its parts joined |
| PayloadRows.RegOfChar | apps/worker-ingest/src/persistJobArtifacts.js:6-9 | and of one character nothing if it is white space, else its capital |
| PayloadRows.AppliedExactly | apps/worker-ingest/src/persistJobArtifacts.js:169-185 | after any writes a hash is taken if and only if it was before or one of them creates it, and the row there is the one that was there or the first |
| PayloadRows.ReportExactly | apps/worker-ingest/src/persistJobArtifacts.js:169-185 | a finished run reports as skipped exactly its creates under hashes taken before or by an earlier create, and everything else as written |
| IngestJob.StepKeepsInv | apps/worker-ingest/src/index.js:644-836 | every step of master, persist children and failure handlers keeps rows consistent, stored rows owned, and progress truthful |
| IngestJob.WriteSettles | apps/worker-ingest/src/persistJobArtifacts.js:169-185 | after its create the row is there: a taken key was taken by this very row |
| IngestJob.JobRowsConsistent | apps/worker-ingest/src/index.js:654-664 | completedAt is set exactly in succeeded or failed, lastError exactly in failed, and claims are at most one more than failure marks |
| IngestJob.ExactlyOnceEffect | apps/worker-ingest/src/index.js:800-836 | over any deliveries, deaths and redeliveries a job's stored rows are among the distinct rows its payload asks for, and exactly those, each once, once it was marked succeeded; PayloadRows says which these are |
| IngestJob.RunsAfterSuccessWriteNothing | apps/worker-ingest/src/index.js:800-828 | a run after success finds every row and writes none |
| IngestJob.OtherJobsUntouched | apps/worker-ingest/src/index.js:800-836 | a step for one job changes neither the row nor the raw rows of another |
| IngestJob.SuccessKeptExactly | apps/worker-ingest/src/index.js:967-979 | a step keeps a job succeeded if and only if it is no failure mark of that job |
| IngestJob.SucceededExactly | apps/worker-ingest/src/index.js:829-836 | after a run a job is succeeded if and only if the last of its successes and failure marks is a success, or there was none and it was succeeded before |
| IngestJob.SuccessIsNotFinal | apps/worker-ingest/src/index.js:967-979 | the failing step: an unguarded failure mark turns a succeeded row back, and it can be claimed again |
| IngestJob.JobsAreAsPosted | apps/api-express/src/routes/scrapeJobs.js:327-339 | a job keeps the kind and the payload it was posted with |
| IngestJob.FailedShowsLastMark | apps/worker-ingest/src/index.js:967-979 | after every run a failed row shows its last failure mark: its time, and its message cut after 4000 characters |
| IngestJob.SucceededAtLastSuccess | apps/worker-ingest/src/index.js:829-836 | a succeeded row shows the time of its last success |
| IngestJob.StartedAtLastClaim | apps/worker-ingest/src/index.js:654-664 | startedAt is the time of the last claim that found the row queued or failed |
| IngestJob.RunAlone | apps/worker-ingest/src/index.js:800-828 | a persist child that runs alone is the run of its single steps |
| IngestJob.JobTable.ClaimForMaster | apps/worker-ingest/src/index.js:644-672 | claims if and only if the row is queued or failed; every other outcome leaves the table alone |
| IngestJob.JobTable.MarkFailedRow | apps/worker-ingest/src/index.js:967-979 | the failure mark, with the message cut at 4000 characters; unknown jobs are left alone |
| IngestJob.JobTable.PersistChild | apps/worker-ingest/src/index.js:783-843 | skips finished jobs, and marks success only after the whole plan went through |
| JobMessages.CounterExactly | apps/worker-ingest/src/index.js:262-269 | a message's own number wins over the one in its letter's envelope, an explicit null reads as zero, and without either the count is zero |
| JobMessages.W3cExactly | apps/worker-ingest/src/index.js:410-420 | a trace field is passed on, trimmed, if and only if it is text that is not blank |
| JobMessages.LetterExactly | apps/worker-ingest/src/index.js:1216-1234 | a letter is the message it was with the reason, place, time and attempts of its failure |
| JobMessages.DeadLetterKeepsCount | apps/worker-ingest/src/index.js:1216-1234 | dead-lettering keeps the counter, remembers the source queue, and is undone by stripping |
| JobMessages.ChildRoundTrip | apps/worker-ingest/src/index.js:856-919 | a dead step child passed through the retry worker is re-added exactly as it was with the counter raised by one |
| JobMessages.MasterRoundTrip | apps/worker-ingest/src/index.js:920-953 | a dead master message comes back with the counter raised by one and only its queue priority lost |
| JobMessages.SliceLosesItsKey | apps/worker-ingest/src/index.js:733-761 | a dead fan-out slice comes back without parent and slice key, under a job id shared by all slices |
| JobMessages.RetryDecidesExactly | apps/worker-ingest/src/index.js:856-953 | for every message: refused at the cap, invalid if and only if its core, or the step of a child, is missing, and else re-added on the queue it resolves to with job, kind, ids, step and progress its own |
| JobMessages.AdminDecidesExactly | apps/api-express/src/routes/adminQueues.js:153-241 | the same for the admin path, for every letter: its target alone decides the queue, and the added message carries the letter's own job, kind, ids, trace fields and, for a child, its step, progress and type |
| JobMessages.AdminChildRoundTrip | apps/api-express/src/routes/adminQueues.js:166-208 | a dead step child whose letter was given the target child is re-added as the very same child, same step and id, with only the counter raised by one |
| JobMessages.AdminMasterRoundTrip | apps/api-express/src/routes/adminQueues.js:209-241 | a dead master message, whatever target but child its letter has, comes back with every field but its queue priority and the counter raised by one |
| JobMessages.ReplayCounts | apps/worker-ingest/src/index.js:868-884 | both replay paths raise the counter by exactly one, respect their cap and leave no failure data |
| JobMessages.ChildrenKeepCount | apps/worker-ingest/src/index.js:697-761 | every child counts what its master counted |
| JobMessages.ChildrenExactly | apps/worker-ingest/src/index.js:692-764 | a master attempt adds one child for each of its two steps, under the step's own id, and with fan-out one slice for each of the eleven types, all with the master's job, kind, ids and trace fields |
| JobMessages.Children | apps/worker-ingest/src/index.js:692-764 | a master attempt adds at most thirteen children |
| JobMessages.AdminRoutesLikeRetry | apps/api-express/src/routes/adminQueues.js:166 | the admin path routes like the retry worker if and only if the target is named or the source is not the child queue |
| JobMessages.AdminTurnsChildIntoMaster | apps/api-express/src/routes/adminQueues.js:154-166 | an untouched dead step child is replayed as a master run of its job: every field but step, progress and type |
| ReplayQueues.AdminAnswersExactly | apps/api-express/src/routes/adminQueues.js:140-252 | 404 if and only if the letter is missing, 400 if and only if it is at the cap or names no work that can be rebuilt, else 200; only an accepted replay whose removal works takes the letter out |
| ReplayQueues.AdminReplayQueuesChild | apps/api-express/src/routes/adminQueues.js:166-252 | a dead step child whose letter was given the target child is back on the child queue under its own id, and the letter is gone |
| ReplayQueues.AcceptedReplayIsQueuedIff | apps/api-express/src/routes/adminQueues.js:166-244 | a replay answered 200 is queued if and only if its job id was free or held the same message |
| ReplayQueues.ReplayOfRetainedJobIsLost | apps/worker-ingest/src/index.js:195-198 | replaying while the failed job is still kept adds nothing and removes the letter |
| ReplayQueues.RerunQueuesPersistExactly | apps/worker-ingest/src/index.js:697-761 | with or without fan-out, a master attempt queues its persist child if and only if the child queue keeps nothing under that id or the same message, and whatever it keeps stays as it is |
| StuckJobs.RerunSticksExactly | apps/worker-ingest/src/index.js:654-724 | a rerun whose add goes through leaves the job stuck if and only if the queue keeps a finished, dead or skipping child |
| StuckJobs.StuckStepExactly | apps/worker-ingest/src/index.js:644-672 | a step frees a stuck job if and only if the queue forgets a kept child while the row can be claimed, the process of a skipping delivery dies, or, with no child kept, the child is replayed or a master attempt throws before its claim |
| StuckJobs.StuckUntilFreed | apps/worker-ingest/src/index.js:644-672 | without such a step a stuck job stays stuck through every run |
| StuckJobs.StuckExactly | apps/worker-ingest/src/index.js:783-836 | the queue workers, with the failure marks they owe, can bring a job to success by themselves if and only if it is not stuck: finished, a working delivery in play, or no child kept and the row claimable now or after a mark that is owed |
| StuckJobs.RerunCanFinishExactly | apps/worker-ingest/src/index.js:654-724 | a master attempt that claims the row leaves a job that can finish if and only if a working delivery is in play, or the child's id was free and the attempt added the child or threw; one that dies between claim and add leaves the row running |
| StuckJobs.ReplayAfterDeadChildSticks | apps/worker-ingest/src/index.js:186-198 | the ordinary replay gets stuck: five failed deliveries, the failure mark, and a replayed master while the dead child is kept |
| ReplayQueues.QueueHandles.RetryReplay | apps/api-express/src/routes/adminQueues.js:105-252 | status and queues after an admin replay; AdminAnswersExactly and AdminDecidesExactly say what they are |
| ReplayForest.CapIsDecidingSetting | apps/worker-ingest/src/index.js:249-255 | the cap is the first setting that is a positive number, rounded down, and five without one; the admin endpoint looks at the second alone |
| ReplayForest.FailedAttemptExactly | apps/worker-ingest/src/index.js:1350-1402 | a failed attempt leaves its message with one attempt fewer, or after the last one as the dead letter that was written, besides what it had added |
| ReplayForest.FailedChildIsDeadLetter | apps/worker-ingest/src/index.js:185-186 | a child that fails at every attempt it has becomes the dead letter of that very message, not sooner and not later |
| ReplayForest.LandingExactly | apps/worker-ingest/src/index.js:697-761 | exactly the adds that reached the queue are there, as new jobs |
| ReplayForest.StepLowersPotential | apps/worker-ingest/src/index.js:692-761 | every master, child, retry, admin or operator step strictly lowers the potential of the queued messages, but for an admin replay that cannot remove its letter, which raises it by less than a fixed number |
| ReplayForest.ReplaysTerminate | apps/worker-ingest/src/index.js:868-953 | without arrivals a run is no longer than the potential it starts from plus a fixed number for every letter an admin replay left behind, and counters on master and child messages stay within the cap |
| ReplayForest.KeptLettersNoEnd | apps/api-express/src/routes/adminQueues.js:243-252 | a letter that is never removed can be replayed in runs of every length |
| ReplayForest.ArrivalsTerminate | apps/api-express/src/routes/adminQueues.js:154-165 | any set of arrivals causes at most a fixed number of steps for each arrival and each letter left behind |
| ReplayForest.FractionalCapIsNone | apps/worker-ingest/src/index.js:249-255 | the computed cap is zero if and only if the deciding setting lies strictly between zero and one |
| ReplayForest.NoCapNoEnd | apps/worker-ingest/src/index.js:868-870 | with a cap of zero there are runs of every length |
| FailedJobReplay.StripRedacts | apps/api-nest/src/failed-job-replay.service.ts:95-118 | every sensitive name at any level the objects reach carries the marker |
| FailedJobReplay.RedactedExactly | apps/api-nest/src/failed-job-replay.service.ts:112-116 | nothing sensitive is left anywhere if and only if no array that the recursion reaches holds any: arrays are copied as they are |
| FailedJobReplay.StripTwice | apps/api-nest/src/failed-job-replay.service.ts:95-118 | stripping again changes nothing |
| FailedJobReplay.OpenPathKept | apps/api-nest/src/failed-job-replay.service.ts:95-118 | along names that are not sensitive, down to the ninth level, every value is kept and none appears |
| FailedJobReplay.Strip | apps/api-nest/src/failed-job-replay.service.ts:95-118 | the recursive loop fills exactly the stripped object, the cut at depth nine included |
| FailedJobReplay.FailedReplayExactly | apps/api-nest/src/failed-job-replay.service.ts:198-262 | with distinct queue names a replay is refused if and only if the queue is none of master, child and retry, job or correlation is blank, no valid kind is readable, or a child names no step; else it goes back to the queue the row failed in |
| FailedJobReplay.BuiltIsFresh | apps/api-nest/src/failed-job-replay.service.ts:244-280 | the built message counts zero replays, keeps job, correlation, kind and step, and has the id of its role; only a child without step is refused |
| FailedJobReplay.FailedReplayRoutes | apps/api-nest/src/failed-job-replay.service.ts:281-305 | the retry form goes to the child queue exactly when there is a step, on both counted replay paths |
| FailedJobReplay.FailedReplayIsArrival | apps/api-nest/src/failed-job-replay.service.ts:198-310 | every accepted replay is a new arrival for the termination result, whatever its counter was before |
| Json.PickNestedValue | apps/api-nest/src/vehicle.service.ts:90-107 | the loops find the value at the first path that exists |
| ComplianceSnapshot.PreparedOwnFacts | apps/worker-ingest/src/persistJobArtifacts.js:115-136 | an ingest contributes exactly the three compliance fields of its kind |
| ComplianceFacts.ValidExactly | apps/worker-ingest/src/persistJobArtifacts.js:387-556 | a record is marked valid if and only if its payload shows it: permit and insurance by a status valid or active in any letter case, at the first name present; fitness by the status valid or an end date that is not blank |
| ComplianceFacts.FactsShowPayload | apps/worker-ingest/src/persistJobArtifacts.js:115-136 | the compliance fields of an ingest say what its payload says: valid or not, the status, and until when |
| ComplianceFacts.StampShowsIngest | apps/worker-ingest/src/persistJobArtifacts.js:93-98 | the source entry names the job, the correlation and the time, and holds the artifact |
| ComplianceSnapshot.ExpectedStep | apps/worker-ingest/src/persistJobArtifacts.js:81-142 | one merge takes the expected snapshot of a log to that of the longer log |
| ComplianceSnapshot.SnapshotIsLastOfEachKind | apps/worker-ingest/src/persistJobArtifacts.js:81-142 | after any serial ingests a vehicle's snapshot is exactly the last ingest of each kind and its facts |
| ComplianceFacts.SnapshotShowsPayloads | apps/worker-ingest/src/persistJobArtifacts.js:81-142 | after any serial ingests the compliance fields of each kind say what the last payload of that kind says |
| ComplianceSnapshot.KindsCommute | apps/worker-ingest/src/persistJobArtifacts.js:101-135 | ingests of different kinds commute apart from which was last |
| SnapshotRaces.RowsAreChains | apps/worker-ingest/src/persistJobArtifacts.js:81-142 | over every interleaving of the reads and writes of any number of ingests a stored row is exactly what serial merges of its chain of writes would store |
| SnapshotRaces.RightWithoutOverlap | apps/worker-ingest/src/persistJobArtifacts.js:81-142 | when no write of another kind for the vehicle lies between an ingest's read and its write, the row is what serial merges of all writes would store |
| SnapshotRaces.OverlapLoses | apps/worker-ingest/src/persistJobArtifacts.js:81-142 | a write that had not seen a write of another kind leaves the row wrong |
| SnapshotRaces.RowsRightExactly | apps/worker-ingest/src/persistJobArtifacts.js:81-142 | the row is right in every state of a run if and only if there is no such overlap in it |
| SnapshotRaces.TwoIngestRace | apps/worker-ingest/src/persistJobArtifacts.js:81-101 | the failing run: two ingests read before either writes, and the first one's kind is lost |
| ComplianceSnapshot.SummaryTable.UpsertComplianceMerge | apps/worker-ingest/src/persistJobArtifacts.js:72-142 | the table after the merge: one vehicle's row replaced by the merged snapshot |
| ComplianceSnapshot.MergeInto | apps/worker-ingest/src/persistJobArtifacts.js:81-137 | the field-by-field assignments produce the merged snapshot |
| ComplianceSnapshot.AddFacts | apps/worker-ingest/src/persistJobArtifacts.js:113-136 | only the kind's own compliance fields change |
| RiskScore.AnswersExactly | apps/api-nest/src/vehicle.service.ts:90-126 | a question is answered yes or no if and only if the first path that exists holds the boolean or one of its words, in any letter case and with white space around |
| RiskScore.ViolationsExactly | apps/api-nest/src/vehicle.service.ts:108-117 | the violations are the number, or what the text stands for, at the first path that exists, unless negative |
| RiskScore.ScoreOfAnswers | apps/api-nest/src/vehicle.service.ts:128-264 | for any snapshot the score is 24, 20 and 18 for the kinds answered with no, four for each violation up to 22, and 16 for a blacklisted vehicle, or 8; without a snapshot it is 10 |
| RiskScore.SignalsExactly | apps/api-nest/src/vehicle.service.ts:156-260 | every signal is raised if and only if its own reason holds |
| RiskScore.FactorsAddUp | apps/api-nest/src/vehicle.service.ts:262-264 | the score is the sum of its factors or 8, and the clamps at 0 and 100 never act |
| RiskScore.BuildWeightedRiskAssessment | apps/api-nest/src/vehicle.service.ts:128-275 | score, factors and signals for any snapshot |
| RiskScore.Weigh | apps/api-nest/src/vehicle.service.ts:148-275 | the pushes produce exactly the factors and signals of the answers read |
| RiskScore.AddUp | apps/api-nest/src/vehicle.service.ts:262 | the reduction sums the contributions |
| RiskScore.ScoreSaysLastIngests | apps/api-nest/src/vehicle.service.ts:156-264 | after any serial ingests the score is 24, 20 and 18 summed over the permit, insurance and fitness kinds whose last payload does not show a valid one, or 8 |
| RiskScore.ScoreTellsKinds | apps/api-nest/src/vehicle.service.ts:76-80 | two scores are equal if and only if the last payloads show the same kinds not in order, and ingests alone never reach the high tier |
| RiskScore.ReaderFindsWriterRow | apps/api-nest/src/vehicle.service.ts:344-346 | reader and writer spell a registration alike if and only if it has no space inside |
| SelectorHealth.KeepsExactlySurvivors | apps/worker-ingest/src/lib/selectorHealthMonitor.js:31-35 | for every clock a failure is kept if and only if no failure from it on came later than the window allows |
| SelectorHealth.CountsForEveryClock | apps/worker-ingest/src/lib/selectorHealthMonitor.js:33-37 | for every clock the reported number plus the in-window failures already pruned equals the full-history count plus the kept failures ahead of now; it is that count if and only if these two are equally many |
| SelectorHealth.CountsFullHistory | apps/worker-ingest/src/lib/selectorHealthMonitor.js:33-37 | for a non-decreasing clock the reported number is the full-history count in the window |
| SelectorHealth.AlertsExactly | apps/worker-ingest/src/lib/selectorHealthMonitor.js:37-44 | for every clock an alert is raised if and only if the reported number reaches the threshold, no alert lies within the cooldown and the clock is a cooldown past zero |
| SelectorHealth.AlertRateBounded | apps/worker-ingest/src/lib/selectorHealthMonitor.js:38-44 | alerts number at most one plus elapsed time over cooldown |
| SelectorHealth.ClockStepBackUndercounts | apps/worker-ingest/src/lib/selectorHealthMonitor.js:33-35 | the failing log: a clock that steps back makes the number one less than the failures in the window |
| SelectorHealth.SelectorHealthMonitor.RecordFailure | apps/worker-ingest/src/lib/selectorHealthMonitor.js:29-47 | the method's verdict and new state are those of the replayed history |
| JsonText.StringifyIsOneLine | apps/api-express/src/routes/scrapeJobs.js:670 | serialised JSON never holds a line break |
| JsonReader.TextReadsBack | apps/api-express/src/routes/scrapeJobs.js:670 | every payload is read back from its text by a reader of the JSON grammar, so different payloads have different texts |
| Sse.ChunkingIsInvisible | apps/web/src/app/scrape-console/page.tsx:240-266 | any two ways of cutting the same text into chunks leave the same lines and buffer |
| Sse.FrameBlock | apps/web/src/app/scrape-console/page.tsx:22-34 | a written frame or heartbeat is read back as its line |
| Sse.ConsoleShowsStream | apps/web/src/app/scrape-console/page.tsx:240-266 | for every chunking of the written stream the console shows exactly the frames in order with an empty buffer |
| Sse.PrefixIsFrames | apps/web/src/app/scrape-console/page.tsx:246-248 | for every prefix of the stream the buffer holds only an incomplete frame |
| Sse.WindowKeepsNewest | apps/web/src/app/scrape-console/page.tsx:233-238 | pushing lines one by one keeps the newest 500 |
| Sse.WindowShowsStream | apps/web/src/app/scrape-console/page.tsx:233-266 | after any chunking of the written stream the window shows the newest 500 of what it showed and the complete frames, in order |
| Sse.Watch | apps/web/src/app/scrape-console/page.tsx:240-266 | a new console that reads a stream to any point, chunk by chunk, shows the newest 500 of its complete frames and keeps the incomplete one |
| Sse.ParseSseBlock | apps/web/src/app/scrape-console/page.tsx:22-34 | the loop parses a block as specified |
| Sse.Console.HandleBlock | apps/web/src/app/scrape-console/page.tsx:250-264 | the window after one block |
| Sse.Console.Receive | apps/web/src/app/scrape-console/page.tsx:240-266 | buffer and window after one chunk |
| Sse.Console.ReadAll | apps/web/src/app/scrape-console/page.tsx:240-266 | buffer and window after all chunks of a response |
| Csv.EscapersAgree | apps/api-nest/src/compliance.service.ts:132-138 | the two escapers agree on every cell |
| Csv.PlainExactly | apps/web/src/lib/csv-export.ts:22-29 | a cell is printed as it is if and only if it holds no comma, quote or line break |
| Csv.PrintRow | apps/web/src/lib/csv-export.ts:33-35 | a row is printed as its escaped cells with commas |
| Csv.BuildCsvString | apps/web/src/lib/csv-export.ts:31-38 | the printed text is the joined lines of header and rows |
| Csv.EndedRoundTrip | apps/api-nest/src/compliance.service.ts:220-229 | every table printed with ended lines is read back by the parser |
| Csv.JoinedRoundTrip | apps/web/src/lib/csv-export.ts:22-38 | joined lines are read back if and only if the last line is not a single empty cell |
| Csv.PrintingIsInjective | apps/web/src/lib/csv-export.ts:22-38 | different tables of two or more columns print differently |
| ComplianceExport.ExportCap | apps/api-nest/src/compliance.service.ts:141-150 | the cap is the requested number rounded down inside 1 to 5000, the nearer end outside, and 500 for none |
| ComplianceExport.WriteRows | apps/api-nest/src/compliance.service.ts:220-229 | the inner loop appends exactly its rows |
| ComplianceExport.WriteSummaryCsv | apps/api-nest/src/compliance.service.ts:194-237 | over any table and cap the batches write the header and the first rows up to the cap once each, in order |
| ComplianceExport.ExportReadsBack | apps/api-nest/src/compliance.service.ts:195-229 | the body without its byte order mark is read back as the four column names and each row's four fields under them |
| EventPaging.ResolveLimit | apps/api-express/src/routes/scrapeJobs.js:559-563 | the limit is the number rounded down up to 200, 25 for none or none positive, and zero exactly for a fraction below one |
| EventPaging.PageFailsExactly | apps/api-express/src/routes/scrapeJobs.js:601-603 | the handler fails if and only if such a fraction meets events to show |
| EventPaging.PageIsCut | apps/api-express/src/routes/scrapeJobs.js:585-603 | reading one row more cuts the page from all events below the cursor |
| EventPaging.PageShrinks | apps/api-express/src/routes/scrapeJobs.js:601-603 | the next cursor leaves exactly the events not on the page, in any later log |
| EventPaging.CrawlCollects | apps/api-express/src/routes/scrapeJobs.js:565-603 | following cursors from any issued cursor yields what lies below it, newest first |
| EventPaging.PagingIsComplete | apps/api-express/src/routes/scrapeJobs.js:565-603 | following nextCursor ends and yields the first request's events exactly once, newest first, whatever arrives meanwhile |
| EventPaging.Tick | apps/api-express/src/routes/scrapeJobs.js:681-705 | one polling tick writes the next events and moves the position |
| EventPaging.TickDelivers | apps/api-express/src/routes/scrapeJobs.js:684-705 | a tick takes the stream from one prefix of the log to the next, at most 100 further |
| EventPaging.SerialTicksDeliver | apps/api-express/src/routes/scrapeJobs.js:732-736 | any number of ticks that do not overlap write a prefix of the log, in order, without gaps or repeats |
| StreamRaces.NothingMissed | apps/api-express/src/routes/scrapeJobs.js:681-736 | however ticks overlap, answer late or fail, every event up to the stream position has been written |
| StreamRaces.RepeatsExactly | apps/api-express/src/routes/scrapeJobs.js:681-736 | over every run an event is written twice if and only if some tick with rows finds the position moved since its read; otherwise the stream is the log up to its position |
| StreamRaces.OverlapRepeats | apps/api-express/src/routes/scrapeJobs.js:734-736 | the failing run: a second tick reads before the first has written, and both write the same event |

## Left out

- BrowserPool: how long a browser must be idle before the clean-up takes it is not modelled: it may take any idle one.
- BrowserPool: a browser whose launch resolves after the launch timeout is not tracked by the source either; slot objects are values in a map here, so aliasing of a slot is by its number.
- TenantQuota: calling the wrapped release twice is excluded, since the wrapper gives back twice.
- shutdownPool, resetQuotaState, getPoolStats and getQuotaStats are not modelled.
- LeaseClock: clock differences between replicas and late timers are not modelled; nor is a graceful shutdown, which stops the collection timer before it gives the leases back while acquires may still be granted.
- LeaseQuota: a maximum of zero, with which the server skips the quota altogether, is not modelled; the results are about positive maxima.
- LeaseQuota: the fair-share soft cap is not modelled; its check and its count are separated by awaits.
- IngestJob: the child steps other than persisting only append events; events, progress updates and the smoke run are left out.
- IngestJob: the summary tables other than compliance appear in a plan only as the entry they add to the summary, and their failure points.
- IngestJob: the development poller that also claims rows is not modelled.
- StuckJobs: attempts of the master are not counted, the limit on stalled deliveries is not modelled, nor is a child that is removed by hand while it runs.
- ReplayForest: the failed-job replay resets the counter, so its messages count as new arrivals; stalled redeliveries, which do not use up an attempt, are not modelled.
- FailedJobReplay: the payload size limit, and the second redaction of a message whose names are never sensitive, are left out.
- The worker's back-off after consecutive child failures only delays handlers and is not modelled.
- ReplayForest: nothing in the repository moves a letter to the retry queue; that step is an operator's.
- JobMessages: property names the code does not mention are kept in one map of extra fields.
- ComplianceSnapshot: the two clock reads of one merge are one value.
- JsonReader: escaped surrogate pairs are not put together, since texts are sequences of whole characters.
- RiskScore: labels and reason texts, and the sorting of reasons, are left out.
- Strings: letter case is mapped for ASCII letters only.
- Sse: decoding bytes to text, and the pretty-printed copy of the last event, are left out.
- EventPaging: the ticks of `SerialTicksDeliver` do not overlap; overlapping ones are in StreamRaces. The cursor and limit arrive already converted to numbers.
- ComplianceExport: the table is assumed not to change and to have a fixed total order, although the source sorts by update time alone.
- buildCsvBlob of the leads page does not escape quotes and is not modelled.
- Authentication, tenant guards, request validation, list endpoints, metrics, tracing and rendering are left out: they would add only easy members.
