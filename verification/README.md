# Verified model of the LLM serving platform

A Dafny model of the stateful components of the serving platform, and proofs of what they promise
over whole runs. Every module is named after the component it models; where the program changes an
object step by step, the model is a class whose methods do the same, each tied to a function of the
old state, and the promises are proved about those functions. `dafny verify dfyconfig.toml` checks
everything.

| files | component |
|---|---|
| `FairQueue`, `FairQueueObject`, `FairQueueRuns`, `FairQueueLedger` | token-cost deficit round robin with priority aging |
| `Topology` | device graph, Dijkstra with lazy deletion, group costs |
| `WorkerMemory`, `WorkerObject` | concurrent model loads, evictions and unloads over the simulated runtime |
| `WorkerBatch` | batch formation from the worker's queue |
| `BlockAllocator`, `PagedKV` | fixed-block allocator and the physical page store above it |
| `PrefixCache` | radix trie plus LRU map |
| `TokenScheduling`, `TokenSequences`, `TokenEngine` | policies and iteration scheduler of the token engine |
| `BatchScheduler` | bounded queue, compatibility batches, scheduler loop |
| `Admission`, `RedisAdmission`, `AdmissionObjects` | tenant admission in memory and in Redis |
| `Lease` | recovery lease and the supervisors that hold it |
| `RequestLifecycle` | request states and transitions |
| `Wrappers`, `Arithmetic`, `Sequences`, `Sums` | shared helpers |

Concurrency is modelled by atomic steps: a locked section, a runtime call or a script run by Redis is
one step, and steps of different threads interleave freely. In the asyncio components a method
`Wait` stands for an await; its body lets any number of other tasks run. Clock readings, timeouts,
backend results and failures are arbitrary values, so the proofs hold for all of them. Floating-point
costs, times and utilisations are reals; a block count is an exact integer ceiling.

## What the proofs say about the code

- **Fair queue.** Backlogged tenants are served in proportion to their weights up to a constant,
  provided no request costs less than one visit's credit. That floor is needed: a visit serves at
  most one request and unused credit is kept, and `FairnessNeedsCostFloor` builds, for every limit, a
  run from a fresh queue in which an always backlogged tenant falls further behind than that.
  Starvation freedom and the bound on empty pops need no floor.
- **Worker memory.** The worker only checks that a model is neither resident nor loading.
  `GuardIsExact` shows the exact extra condition for residents to stay loaded: when a load of a model
  begins, nothing in flight may still hold that model, neither as a victim that will be unloaded, nor
  as one that a failing load will put back (even after its unload ran), nor as an explicit unload.
  `GuardFailsFromInit` is a run of a fresh worker that breaks it, and `MemoryFailsFromInit` goes on
  from there until memory is overcommitted. Under the condition memory stays
  below the limit in every interleaving and the runtime's memory error is unreachable. The accounting
  of loads and reserved bytes needs no condition. Evictions spare models with running batches; explicit
  unloads (also those of the idle eviction, whose check and unload are separate) look only at the
  queue, and `ServingStep` shows that they are the only way to drop such a model;
  `RunningCanBeDropped` is such a run.
- **Worker batches.** A call of the executor is refused midway exactly when it selects a request that
  another holder of the record has already started; requests selected behind that one are then neither
  queued nor started. Nothing keeps two queued requests from having the same id, so the bound on
  waiting follows the requests themselves.
- **Admission.** The Redis scripts simulate the in-memory controller step by step. The result codes
  differ exactly when a request that is already reserved is decided again and a check that Redis makes
  before its script now fails.
- **Lease.** Two supervisors overlap only if a recovery pass outlives its grant, and then they can.
- **Token engine.** A ghost history keeps one entry per reservation that consumers do not touch. Every
  log only grows until its terminal event and never after it, nobody leaves the active table without
  one, and a drained engine has closed every log it ever opened. What the backend answers is an input
  of each turn, and each sequence of a batch meets the outcome that its own answer calls for.
- **Batch scheduler.** Through the sentinel the loop ends only with every future resolved. When its
  task is cancelled instead, as the gateway does after the grace period, deferred requests are
  abandoned: `LostAtShutdown` is such a run. If the worker call is cancelled after shutdown began, the
  futures are all resolved if and only if each deferred request was resolved before the call or is
  cancelled during it (`CalmTurn`, `RunCollected`). A result list of the wrong length resolves the requests
  handed out before the mismatch as completed and then marks their records failed (`Deliver`). A
  rotation of the deferred requests keeps their order exactly when the batch does not fill up after
  keeping one back.
- **Allocator.** `retain` is modelled and proved although no component in this model calls it.

## Model

| member | source | states |
|---|---|---|
| FairQueue.BestIsPreferred | serving_platform/scheduling/fair_queue.py:52-63 | the chosen request is maximal in (aged priority, age of creation) and the first such in the queue |
| FairQueue.PreferenceIsTimeless | serving_platform/scheduling/fair_queue.py:57-62 | who is preferred does not depend on the clock reading; a point of priority is worth exactly the aging seconds |
| FairQueue.BestIsTimeless | serving_platform/scheduling/fair_queue.py:52-63 | the choice from a queue is the same at every time |
| FairQueue.LiveMembers | serving_platform/scheduling/fair_queue.py:71 | filtering keeps exactly the requests that are not terminal |
| FairQueue.VisitKeepsInv | serving_platform/scheduling/fair_queue.py:68-87 | after a visit every non-empty tenant is in the ring exactly once, the maps still cover the configured tenants, and each queue holds only its tenant's requests, no id twice |
| FairQueue.EnqueueKeepsInv | serving_platform/scheduling/fair_queue.py:34-50 | the same after an accepted request |
| FairQueue.CancelKeepsInv | serving_platform/scheduling/fair_queue.py:90-98 | the same after a cancellation, which leaves deficits and ring alone |
| FairQueue.PopVisitsOnce | serving_platform/scheduling/fair_queue.py:68-87 | within one pop the tenants are visited in ring order, each at most once |
| FairQueueObject.WeightedFairRequestQueue.constructor | serving_platform/scheduling/fair_queue.py:14-32 | a fresh queue is valid, empty, with zero deficits |
| FairQueueObject.WeightedFairRequestQueue.Enqueue | serving_platform/scheduling/fair_queue.py:34-50 | unknown tenant, wrong state or duplicate id change nothing; otherwise the request, queued now unless it was already, is the last of its tenant, which joins the ring at the back unless it is in it, and deficits stay |
| FairQueueObject.WeightedFairRequestQueue.NextForTenant | serving_platform/scheduling/fair_queue.py:52-63 | the scan returns the timeless preferred index whatever the clock says |
| FairQueueObject.WeightedFairRequestQueue.DropTerminal | serving_platform/scheduling/fair_queue.py:71 | the loop yields the live requests in order |
| FairQueueObject.WeightedFairRequestQueue.VisitNext | serving_platform/scheduling/fair_queue.py:69-87 | one visit of the head tenant is the specified visit; it finds the tenant empty exactly when all its requests are terminal, and then the deficit is zero and the tenant out of the ring |
| FairQueueObject.WeightedFairRequestQueue.Settle | serving_platform/scheduling/fair_queue.py:76-87 | serve if affordable and keep the rest of the deficit, else requeue behind the others |
| FairQueueObject.WeightedFairRequestQueue.Pop | serving_platform/scheduling/fair_queue.py:65-88 | the loop ends, visits tenants in ring order and each at most once; each visit drops the terminal requests and either finds none left and resets the deficit, or serves the due request if the deficit with the credit covers its cost, or keeps both; the first service ends the pop |
| FairQueueObject.WeightedFairRequestQueue.Cancel | serving_platform/scheduling/fair_queue.py:90-98 | removes the first request with the id in tenant order, even when the transition is then refused |
| FairQueueRuns.RunTokens | serving_platform/scheduling/fair_queue.py:76-88 | over any run, tokens served plus final deficit equal initial deficit plus credit per visit, and the deficit stays below the bound |
| FairQueueRuns.RunAlternates | serving_platform/scheduling/fair_queue.py:65-88 | visits of two backlogged tenants alternate: their counts and ring positions balance |
| FairQueueRuns.WeightedFairness | serving_platform/scheduling/fair_queue.py:65-88 | over any run visit counts of backlogged tenants differ by at most one and weighted served tokens by less than quantum + M/wA + M/wB, written without division |
| FairQueueRuns.FairnessNeedsCostFloor | serving_platform/scheduling/fair_queue.py:34-88 | for every limit, a run from a fresh queue in which two tenants first send their requests and then, always backlogged, the weighted gap exceeds the limit over the pops |
| FairQueueRuns.NoStarvation | serving_platform/scheduling/fair_queue.py:65-88 | a backlogged tenant is served within tenants times rounds pops, whatever the others do |
| FairQueueRuns.IdlePopsAreBounded | serving_platform/scheduling/fair_queue.py:65-88 | fewer than hi/credit pops in a row return nothing while a tenant has live requests costing at most hi |
| FairQueueRuns.PopAccounts | serving_platform/scheduling/fair_queue.py:68-88 | credit in, service out, per pop and per backlogged tenant |
| FairQueueRuns.PopConserves | serving_platform/scheduling/fair_queue.py:65-88 | a pop takes exactly the returned request from its own tenant and leaves every other live request of every tenant in place |
| FairQueueRuns.OvertakingIsBounded | serving_platform/scheduling/fair_queue.py:52-85 | a popped request was queued no later than any live request of its tenant that was waiting, plus aging seconds per extra point of priority; with priorities from 0 to 100, plus 100 times the aging seconds |
| FairQueueRuns.PopReturnsQueued | serving_platform/scheduling/fair_queue.py:79-85 | what a pop returns was queued and live |
| FairQueueRuns.ArrivalIsQueued | serving_platform/scheduling/fair_queue.py:46-50 | an accepted request is the last live request of its tenant, which is in the ring; other tenants are untouched |
| FairQueueRuns.CancelTakesOne | serving_platform/scheduling/fair_queue.py:90-98 | the first request with the id, in the first tenant that has one, is removed, or there was none |
| FairQueueLedger.BestIsChosen | serving_platform/scheduling/fair_queue.py:52-63 | the request picked is live and has the highest priority, a point being worth the aging seconds of waiting, and among equals was created first and stands first in the queue |
| FairQueueLedger.LiveInOrder | serving_platform/scheduling/fair_queue.py:71 | dropping terminal requests keeps the order of the others |
| FairQueueLedger.EmptiedResets | serving_platform/scheduling/fair_queue.py:69-75 | a visit finds a tenant empty exactly when all its requests are terminal, and then its deficit is zero and it is out of the ring |
| FairQueueLedger.PopIsExact | serving_platform/scheduling/fair_queue.py:65-88 | what a pop of at most n visits does to every tenant, visited or not, and to the ring |
| FairQueueLedger.RunIsBooked | serving_platform/scheduling/fair_queue.py:65-98 | over any run, with arrivals, cancellations and changes by other holders, every deficit is the balance of the visits: credit in, service out, zero when found empty, and never overdrawn |
| FairQueueLedger.IdleBanksNothing | serving_platform/scheduling/fair_queue.py:72-88 | after a visit that found a tenant empty, the tokens served to it in the rest of any run are at most its credit times the visits since |
| RequestLifecycle.LifecycleIsOneWay | serving_platform/domain/models.py:45-116 | along any chain of allowed transitions terminal is for ever, started requests are never queued again, and the only cycle is queued/assigned |
| RequestLifecycle.AllowedByTarget | serving_platform/domain/models.py:45-95 | which states may lead to each state; only a terminal one leads nowhere |
| Topology.Build | serving_platform/topology/models.py:52-80 | succeeds exactly if the endpoints are distinct, all links are between known ones and no two connect the same pair; duplicate endpoints are reported first, then what is wrong with the first link that is not sound beside those before it; the neighbours of an endpoint are exactly those that a link pairs it with, at that cost |
| Topology.FirstErrorStands | serving_platform/topology/models.py:64-73 | the first offending link decides the error |
| Topology.LinkErrorMeans | serving_platform/topology/models.py:62-73 | there is an error exactly if the links are not sound together, and it is the first bad link's: an unknown endpoint before a repeated pair |
| Topology.AppendKeepsRepresents | serving_platform/topology/models.py:74-79 | appending both directions of a link keeps the adjacency equal to the links, symmetric and positive |
| Topology.HeapPop | serving_platform/topology/models.py:90 | takes out one entry of least cost |
| Topology.Relax | serving_platform/topology/models.py:95-99 | relaxing every edge of the node being expanded keeps tentative costs witnessed by walks and the heap consistent with them, and the heap gains exactly what is pushed |
| Topology.WalksCostMore | serving_platform/topology/models.py:88-99 | any walk costs at least its end's tentative cost if expanded, else at least the cheapest heap entry |
| Topology.PathCost | serving_platform/topology/models.py:82-100 | returns the least cost over all walks, infinity exactly when there is none, errors exactly for unknown endpoints; ends although stale entries remain; no (cost, node) pair is pushed twice, what is popped had been pushed, all of it when there is no walk, and at every popped node but the target all neighbours have been pushed at no more than the cost through it |
| Topology.FoundIsLeast | serving_platform/topology/models.py:91-92 | the early exit at the target returns the least cost |
| Topology.NothingLeft | serving_platform/topology/models.py:100 | with the heap empty there is no walk to the target |
| Topology.DropKeepsQueued | serving_platform/topology/models.py:93-94 | skipping a stale entry loses nothing |
| Topology.ExpandKeepsQueued | serving_platform/topology/models.py:90-95 | a fresh cheapest entry is its node's only expansion |
| Topology.DistanceIsSymmetric | serving_platform/topology/models.py:74-100 | path cost is symmetric |
| Topology.TriangleInequality | serving_platform/topology/models.py:82-100 | path cost obeys the triangle inequality |
| Topology.OnlySelfIsFree | serving_platform/topology/models.py:85-86 | zero cost exactly between an endpoint and itself |
| Topology.AddPairs | serving_platform/topology/models.py:102-105 | adds the path costs from one member to the later ones, or reports the unknown one |
| Topology.GroupCost | serving_platform/topology/models.py:102-105 | the sum over all pairs; duplicates are refused and an unknown member is noticed exactly when there is a pair |
| Topology.GroupCostIgnoresOrder | serving_platform/topology/models.py:102-105 | the group cost does not depend on the order of the members |
| Topology.EveryPairCounts | serving_platform/topology/models.py:102-105 | adding up the costs from every member to every member gives exactly twice the group cost |
| Topology.PairCostsDistance | serving_platform/topology/models.py:102-105 | the cost of a group of two is their path cost |
| WorkerMemory.VictimsAreMinimal | apps/worker/service.py:191-206 | victims are exactly the idle models among the least recently used, none skipped and none more than needed; selection fails only if evicting every idle model is not enough |
| WorkerMemory.SortByLastUse | apps/worker/service.py:192-195 | the residents, each once, by increasing time of last use (zero if there is none), ties by name |
| WorkerMemory.LexicalMeans | apps/worker/service.py:192-195 | names compare at the first place where they differ, or where the first one ends |
| WorkerMemory.VictimsAreRight | apps/worker/service.py:182-206 | victims are idle residents; none that stays was used longer ago, or as long ago with an earlier name; without the last victim there would be too little room; and there is room exactly if evicting every idle model would make it |
| WorkerMemory.SelectVictims | apps/worker/service.py:191-206 | the selection loop refines the specified choice |
| WorkerMemory.AccountingStep | apps/worker/service.py:213-246 | in every interleaving one in-flight load per model, and reserved bytes equal the sum over in-flight loads |
| WorkerMemory.EveryRunAccounts | apps/worker/service.py:155-262 | the same over whole runs, without any condition |
| WorkerMemory.ResidencyStep | apps/worker/service.py:207-262 | under the guard residents stay loaded, queued models stay resident, and nothing is held twice |
| WorkerMemory.BeginKeepsResidency | apps/worker/service.py:182-216 | taking victims out of residency keeps resident, held and target models apart |
| WorkerMemory.ReturnKeepsResidency | apps/worker/service.py:225-241 | publishing and the failure handler give models back only while the runtime has them |
| WorkerMemory.ServingStep | apps/worker/service.py:196-255 | no step takes the model of a running batch out of residency, except exactly an explicit unload of it, which looks only at the queue |
| WorkerMemory.RunningIsLoaded | apps/worker/service.py:155-262 | over whole guarded runs without such unloads the model of every running batch is loaded |
| WorkerMemory.RunningCanBeDropped | apps/worker/service.py:248-262 | a run of a fresh worker that keeps the guard and ends with a running batch whose model is neither resident nor loaded: load, enqueue, start the batch, unload |
| WorkerMemory.MemoryStep | apps/worker/service.py:178-262 | used bytes plus what in-flight loads may still add stay within total minus the safety reserve |
| WorkerMemory.RuntimeAcceptsLoad | runtime/simulated_gpu/runtime.py:61-73 | the runtime's own memory check never refuses a load the worker began |
| WorkerMemory.CarefulRunsAreSafe | apps/worker/service.py:155-262 | over whole guarded runs: accounting, residency, queued implies loaded, and used memory within the limit |
| WorkerMemory.UnguardedLoadCanBreak | apps/worker/service.py:207-241 | a load of a held model can always be continued to a resident model that is not loaded |
| WorkerMemory.GuardIsExact | apps/worker/service.py:155-241 | beginning a load is safe if and only if nothing in flight holds the model |
| WorkerMemory.GuardFailsFromInit | apps/worker/service.py:155-257 | a run of a fresh worker in which the guard fails and a model ends up resident but not loaded: load it, begin to unload it, load it again |
| WorkerMemory.MemoryFailsFromInit | apps/worker/service.py:178-246 | that run goes on: a model that fills the memory is loaded, and then a smaller one in exchange for the lost model; if it fits into the safety reserve used memory passes the limit, and otherwise the runtime raises its memory error |
| WorkerMemory.FinishUnloading | apps/worker/service.py:219-222 | the unload loop of one load, run undisturbed, frees exactly its victims |
| WorkerObject.ManagedWorker.Capacity | runtime/simulated_gpu/runtime.py:171-177 | used memory is the sum over loaded models |
| WorkerObject.ManagedWorker.BeginLoad | apps/worker/service.py:178-216 | succeeds exactly if the free memory less reservations and the safety reserve, with every idle model evicted, covers the model; no idle model that stays was used longer ago than a victim (ties by name), and without the last victim there would be too little; then the step is made and the victims' last use forgotten; otherwise nothing changes |
| WorkerObject.ManagedWorker.Touch | apps/worker/service.py:160-163 | a load of a resident model only makes it just used |
| WorkerObject.ManagedWorker.StartBatch | apps/worker/service.py:365-370 | queued requests of a model become running ones, and the model has just been used |
| WorkerObject.ManagedWorker.EndBatch | apps/worker/service.py:391-396 | they run no more |
| WorkerObject.ManagedWorker.UnloadVictim | apps/worker/service.py:220-222 | one victim's runtime unload |
| WorkerObject.ManagedWorker.RuntimeCheck | runtime/simulated_gpu/runtime.py:65-71 | accepted exactly if the model is already loaded or fits into the free memory; never refused from a safe state |
| WorkerObject.ManagedWorker.RuntimeCommit | runtime/simulated_gpu/runtime.py:72-73 | the load becomes visible after the copy |
| WorkerObject.ManagedWorker.PublishLoad | apps/worker/service.py:225-230 | the loaded model becomes resident, just used |
| WorkerObject.ManagedWorker.RestoreEvicted | apps/worker/service.py:231-240 | the handler's loop makes exactly the still loaded victims resident again, just used |
| WorkerObject.ManagedWorker.FinishLoad | apps/worker/service.py:241-246 | the reservation and the loading mark go |
| WorkerObject.ManagedWorker.BeginUnload | apps/worker/service.py:248-255 | refused with queued requests, a no-op when not resident; running batches are not looked at |
| WorkerObject.ManagedWorker.RuntimeUnload | apps/worker/service.py:256-257 | the runtime drops the model |
| WorkerObject.ManagedWorker.RestoreUnload | apps/worker/service.py:258-262 | a failed unload makes the model resident again |
| WorkerBatch.BatchIsSound | apps/worker/service.py:330-368 | both budgets hold, one shape, selected requests are not terminal and their deadlines lie ahead, dropped ones are terminal or their deadlines have come, nothing that still fits is left behind, and selected, dropped and left partition the queue in order |
| WorkerBatch.CallInTime | apps/worker/service.py:330-368 | no started request has a deadline that has come, and a dropped one that was not terminal leaves as timed out with its deadline come |
| WorkerBatch.EarlierComesFirst | apps/worker/service.py:342-364 | requests behind in the queue never change which of those before them are selected |
| WorkerBatch.ScanPartitions | apps/worker/service.py:347-364 | the scan behind the first request neither loses nor doubles a request |
| WorkerBatch.CallMovesForward | apps/worker/service.py:330-364 | each call serves, drops or moves forward every queued request |
| WorkerBatch.EventKeepsPlace | apps/worker/service.py:302-364 | arrivals, cancellations and transitions by other holders never move a request back, and who leaves has been started or is terminal, unless a call is refused |
| WorkerBatch.ServedWithin | apps/worker/service.py:330-370 | the request at position i, and not merely another one with its id, has left the queue, running or terminal, within i+1 calls whatever arrives behind it and whatever other holders do, as long as no call is refused |
| WorkerBatch.EntriesConserved | apps/worker/service.py:302-370 | over every run each request that was queued or arrived is, exactly once, among those that left or still in the queue |
| WorkerBatch.PoliteRunsAreSmooth | apps/worker/service.py:302-370 | no call of a run is refused while only the executor starts queued requests |
| WorkerBatch.CallsSucceedExactly | apps/worker/service.py:330-368 | calls at one time all succeed if and only if no live request in the queue has been started by another holder |
| WorkerBatch.WorkerQueue.constructor | apps/worker/service.py:75-90 | an empty queue with positive limits |
| WorkerBatch.WorkerQueue.Enqueue | apps/worker/service.py:302-315 | each refusal in order, or the request queued at the back under a number of its own |
| WorkerBatch.WorkerQueue.Cancel | apps/worker/service.py:317-328 | the first queued request with the id leaves the queue, even when the transition is then refused, or else a running one is cancelled |
| WorkerBatch.WorkerQueue.TakeBatch | apps/worker/service.py:332-370 | the locked section takes the specified batch; no started request has a deadline that has come, dropped ones that were not terminal time out at or past their deadlines, and selected ones start and are counted; it is refused exactly when a selected request has been started by another holder, and then those before it stay counted and the others are neither queued nor started |
| WorkerBatch.EnteredMeans | apps/worker/service.py:365-370 | in the active table each id names the last started request that has it, or else what it named before |
| WorkerBatch.ModelsCount | apps/worker/service.py:365-370 | the counts per model are those of the requests one by one |
| WorkerBatch.WorkerQueue.SkipDead | apps/worker/service.py:334-339 | the first loop drops the leading requests that are terminal or whose deadlines have come, the latter timed out, and the batch from the rest is the same |
| WorkerBatch.WorkerQueue.Collect | apps/worker/service.py:342-364 | the second loop takes the batch, times out candidates whose deadlines have come and puts the rest back in order |
| WorkerBatch.WorkerQueue.FinishBatch | apps/worker/service.py:384-402 | every request of the batch ends completed if the execution succeeded and failed if not, by an allowed transition, unless it was terminal before; the batch leaves the active table and the per-model counts |
| BlockAllocator.CeilDivIsLeast | inference/kv_cache.py:67-70 | the block count is the least that holds the tokens |
| BlockAllocator.TopIsStack | inference/kv_cache.py:80-90 | blocks come off the top of the stack, one after the other |
| BlockAllocator.UnsharedInOrder | inference/kv_cache.py:138-150 | exactly the blocks that nobody else holds are freed, in the order of the table |
| BlockAllocator.FreePlusUsed | inference/kv_cache.py:163-190 | free plus used blocks make up the capacity |
| BlockAllocator.OwnersDetermine | inference/kv_cache.py:163-178 | the tables determine references and free blocks, so undoing an operation restores them |
| BlockAllocator.NothingOwnedNothingUsed | inference/kv_cache.py:163-178 | without owners no block is used |
| BlockAllocator.AllocateKeepsConsistent | inference/kv_cache.py:85-90 | allocation keeps the partition and the counts |
| BlockAllocator.RetainKeepsConsistent | inference/kv_cache.py:103-105 | sharing keeps the partition and the counts |
| BlockAllocator.GrowKeepsConsistent | inference/kv_cache.py:125-129 | growing a table keeps them |
| BlockAllocator.ShrinkKeepsConsistent | inference/kv_cache.py:130-134 | cutting a table back keeps them |
| BlockAllocator.ReleaseKeepsConsistent | inference/kv_cache.py:138-151 | release keeps them |
| BlockAllocator.PressureMeaning | inference/kv_cache.py:195-200 | pressure is on exactly when the last sample that was not strictly between the marks, as shares of all blocks, was at or above the high one |
| BlockAllocator.KVBlockAllocator.constructor | inference/kv_cache.py:43-65 | all blocks free, lowest first on the stack |
| BlockAllocator.KVBlockAllocator.UpdatePressure | inference/kv_cache.py:195-200 | the flag follows the history of samples |
| BlockAllocator.KVBlockAllocator.Allocate | inference/kv_cache.py:72-90 | each error in order with no ownership change, or the top of the stack in LIFO order |
| BlockAllocator.KVBlockAllocator.Retain | inference/kv_cache.py:92-106 | each error in order, or every count up by one |
| BlockAllocator.KVBlockAllocator.Resize | inference/kv_cache.py:108-136 | each error in order; the prefix both sizes share stays in place |
| BlockAllocator.KVBlockAllocator.Release | inference/kv_cache.py:138-151 | idempotent; blocks return in table order when their last owner goes |
| BlockAllocator.KVBlockAllocator.DropReferences | inference/kv_cache.py:143-149 | counts drop by one and exactly the unshared blocks are freed |
| PagedKV.PageAndSlot | inference/paged_kv.py:134-137 | the recursive page and slot of a position are its quotient and remainder |
| PagedKV.PasteExtends | inference/paged_kv.py:138-158 | writing the next slots of a table appends to what the table holds |
| PagedKV.PasteElsewhere | inference/paged_kv.py:138-158 | a write does not change any table without the block |
| PagedKV.AgreesAfterPaste | inference/paged_kv.py:138-158 | after a page write every id's pages hold its tokens and only the written sequence grew |
| PagedKV.FreshTable | inference/paged_kv.py:98 | a new table shares no block with the others |
| PagedKV.AgreesWithNewTable | inference/paged_kv.py:95-100 | a reused page does not show in the new sequence |
| PagedKV.AgreesWithoutTable | inference/paged_kv.py:241-243 | forgetting one id leaves the others' contents |
| PagedKV.WritePage | inference/paged_kv.py:143-157 | the layer loop writes one page of both arrays and nothing else |
| PagedKV.PagedKVCache.constructor | inference/paged_kv.py:61-93 | fresh pages, no sequence |
| PagedKV.PagedKVCache.Allocate | inference/paged_kv.py:95-100 | the error cases, or an empty sequence with enough pages |
| PagedKV.PagedKVCache.Append | inference/paged_kv.py:102-160 | each refusal writes nothing; otherwise the id's contents grow by exactly the chunk and no other id changes |
| PagedKV.PagedKVCache.WriteStep | inference/paged_kv.py:138-158 | one turn of the loop appends the tokens that fit in the current page |
| PagedKV.PagedKVCache.WriteAll | inference/paged_kv.py:132-159 | the loop appends the whole chunk |
| PagedKV.PagedKVCache.Release | inference/paged_kv.py:241-243 | the id is forgotten and its pages go back; others keep their contents |
| PagedKV.PagedKVCache.Materialize | inference/paged_kv.py:162-211 | succeeds exactly for distinct known ids with some token; each row is its id's tokens, zero-padded, with the mask true exactly below its length |
| PagedKV.PagedKVCache.CopyPage | inference/paged_kv.py:199-208 | copies one page's slots of the row's id |
| PagedKV.PagedKVCache.FillRow | inference/paged_kv.py:197-210 | one row of the batch, no other row touched |
| PagedKV.PagedKVCache.LongestRow | inference/paged_kv.py:172-178 | the width is the longest length |
| PrefixCache.LongestKeyIsLongest | inference/prefix_cache.py:83-102 | the longest stored prefix of the query; equal to the query exactly when that is stored |
| PrefixCache.EvictsLeastRecentlyUsed | inference/prefix_cache.py:132-139 | eviction removes a run of oldest keys and never the newest; each time it removes one the entries or the tokens exceed their limit, and in the end neither does; nothing goes if both limits hold |
| PrefixCache.WithoutKeepsOrder | inference/prefix_cache.py:117-131 | replacing a key takes it out of its place and leaves the order of the others |
| PrefixCache.AddChildKeepsLinked | inference/prefix_cache.py:127-128 | a new child keeps paths, links and entries in agreement |
| PrefixCache.RemoveLeafKeepsLinked | inference/prefix_cache.py:152-155 | so does deleting a leaf without an entry |
| PrefixCache.InsertKeepsPruned | inference/prefix_cache.py:126-129 | after an insertion the nodes are exactly the prefixes of the keys |
| PrefixCache.CutKeepsPruned | inference/prefix_cache.py:152-155 | cutting an unneeded node keeps every needed one |
| PrefixCache.CuttingEnds | inference/prefix_cache.py:152-154 | where the cut stops no dead branch remains |
| PrefixCache.NothingBeyond | inference/prefix_cache.py:95-98 | where the descent breaks off no longer key can match |
| PrefixCache.NodesBounded | inference/prefix_cache.py:114-140 | a pruned trie has no more non-root nodes than its keys have tokens |
| PrefixCache.PrefixCache.constructor | inference/prefix_cache.py:60-74 | an empty cache whose limits are both zero or both positive |
| PrefixCache.PrefixCache.SetDefault | inference/prefix_cache.py:128 | the child for a token, created if missing |
| PrefixCache.PrefixCache.InsertPath | inference/prefix_cache.py:126-129 | the trie afterwards mirrors the entries plus the new one |
| PrefixCache.PrefixCache.RemoveRadixEntry | inference/prefix_cache.py:142-155 | the trie afterwards mirrors the entries minus the key, with no dead branch |
| PrefixCache.PrefixCache.CutBranch | inference/prefix_cache.py:152-155 | the upward loop stops at a needed node |
| PrefixCache.PrefixCache.Descend | inference/prefix_cache.py:93-100 | the walk finds the entry of the longest stored prefix |
| PrefixCache.PrefixCache.LongestPrefix | inference/prefix_cache.py:83-112 | hit, miss or bypass with all counters; a hit's key exists and moves to the end |
| PrefixCache.PrefixCache.MoveToEnd | inference/prefix_cache.py:106 | the key becomes the most recently used |
| PrefixCache.PrefixCache.Put | inference/prefix_cache.py:114-140 | refused for an empty key, bypassed if nothing may be kept or the key is too long, or stored as the newest; then the oldest go, none while both limits hold, and with the last one that went a limit would be exceeded |
| PrefixCache.PrefixCache.Store | inference/prefix_cache.py:121-131 | replacing or adding an entry keeps list, map, trie and token count in agreement |
| PrefixCache.PrefixCache.Evict | inference/prefix_cache.py:132-139 | the loop takes keys from the old end only while a limit is exceeded, and ends with both met and the newest key kept |
| PrefixCache.PrefixCache.Get | inference/prefix_cache.py:79-81 | a lookup in the plain map |
| PrefixCache.PrefixCache.Clear | inference/prefix_cache.py:157-161 | everything is gone |
| PrefixCache.PrefixCache.TrieIsSmall | inference/prefix_cache.py:114-155 | non-root nodes are at most the cached tokens, which are the sum of key lengths and within the limit |
| TokenScheduling.PrefillDecodePolicy.Select | inference/token_scheduling.py:47-73 | the three policies refine the specified choice and turn bit |
| TokenScheduling.ChooseIsWorkConserving | inference/token_scheduling.py:47-73 | something is chosen whenever anything can be, from one list only, up to the limit, keeping the policy's preference; the turn bit flips at every call of the balanced policy and at no other |
| TokenScheduling.BalancedAlternates | inference/token_scheduling.py:68-73 | under steady load the balanced policy alternates strictly, decode first |
| TokenSequences.ClosedLogIsWellFormed | inference/token_engine.py:501-568 | a finished log is tokens numbered from 0, none an end or stop token, at most the maximum, then one terminal event; the reason is length exactly at the maximum |
| TokenSequences.ClosingIsClosed | inference/token_engine.py:539-547 | adding the terminal event closes a sound log |
| TokenSequences.EmittingIsSound | inference/token_engine.py:512-520 | an emitted token keeps the log sound |
| TokenSequences.ChroniclesTellAll | inference/token_engine.py:501-568 | between any two moments every active sequence is still the same one with a log that extends its old one, or has ended with a closed log that extends it |
| TokenSequences.NothingActiveAllEnded | inference/token_engine.py:524-568 | with nothing active every sequence ever reserved has a closed log |
| TokenSequences.SieveIsFinal | inference/token_engine.py:265-269 | a cancelled sequence that the scan has passed has ended as cancelled, with nothing else added, and stays so |
| TokenSequences.PrefixIsLongest | inference/token_engine.py:288-300 | there is a prefix to continue from exactly if a stored one can be used, only the whole prompt if the backend cannot resume, and it is the longest stored one |
| TokenSequences.BatchTurns | inference/token_engine.py:251-269 | after a turn each sequence was cancelled, or was timed out with the clock at or past its deadline, or had time left and has met the outcome of its batch or is as it was |
| TokenSequences.WorkAfterRetire | inference/token_engine.py:536-538 | finishing a sequence lowers the remaining work |
| TokenSequences.WorkAfterWaiting | inference/token_engine.py:110-148 | what other tasks do without reserving leaves the remaining work alone |
| TokenEngine.TokenGenerationEngine.constructor | inference/token_engine.py:71-108 | an empty engine over an allocator without owners |
| TokenEngine.TokenGenerationEngine.Reserve | inference/token_engine.py:125-148 | succeeds exactly when the engine is open, the id is new and not empty, a slot is free and the blocks for the longest cache are; each refusal in order and without effect; otherwise one new queued sequence that owns its blocks |
| TokenEngine.TokenGenerationEngine.Cancel | inference/token_engine.py:113-119 | exactly an active, unfinished sequence is flagged |
| TokenEngine.TokenGenerationEngine.Close | inference/token_engine.py:604-606 | no new reservations, and exactly every active sequence is flagged |
| TokenEngine.TokenGenerationEngine.Wait | inference/token_engine.py:110-148 | other tasks keep the invariant, change active records only by flagging, and never end a sequence or change a closed log |
| TokenEngine.TokenGenerationEngine.CheckInterruption | inference/token_engine.py:181-186 | cancelled exactly if flagged; timed out exactly if not flagged and the clock is at or past the deadline |
| TokenEngine.TokenGenerationEngine.Retire | inference/token_engine.py:536-547 | blocks freed exactly once, the record moved to the finished ones and its log closed for good |
| TokenEngine.TokenGenerationEngine.Complete | inference/token_engine.py:524-549 | the sequence leaves the active table and its log gains exactly the terminal event with the reason; no other sequence is touched |
| TokenEngine.TokenGenerationEngine.Fail | inference/token_engine.py:551-568 | the same with a failure event |
| TokenEngine.TokenGenerationEngine.AcceptToken | inference/token_engine.py:501-522 | a cancelled sequence ends as such; otherwise it is timed out exactly if the clock is at or past its deadline, ends at an end token, a stop token or the length in that order, and goes on in every other case; the token is shown unless the sequence ends otherwise than by length, and an end adds exactly its terminal event; the work left strictly decreases |
| TokenEngine.TokenGenerationEngine.Deliver | inference/token_engine.py:360-369 | the sequence gets its backend result: failed if there is none, or the token is accepted with the verdict that is its own unless an interruption replaces it |
| TokenEngine.TokenGenerationEngine.RunChunk | inference/token_engine.py:384-414 | a chunk moves the offset by its size and nothing else; exactly the final one yields the first token, which is the one the backend returned; without a result the sequence fails |
| TokenEngine.TokenGenerationEngine.RunBatch | inference/token_engine.py:330-369 | after one backend call each sequence of the batch has met the outcome that its own result calls for, all failed if the call raised or the end tokens are unknown, and no other sequence is touched |
| TokenEngine.TokenGenerationEngine.Prepare | inference/token_engine.py:273-328 | the outcome is the one that tokenizer, allocator and prefix cache call for: failed by the tokenizer, failed for lack of blocks (which the allocator then counted), continued from the longest stored prefix that the backend can use, with that token accepted, or ready and unchanged but for the marks |
| TokenEngine.TokenGenerationEngine.FitBlocks | inference/token_engine.py:283-287 | resized to the true length exactly when enough blocks are free, as no table is shared; a refused resize changes no table and is counted |
| TokenEngine.TokenGenerationEngine.RunPrefill | inference/token_engine.py:271-369 | each chosen sequence has met the outcome that its own preparation, or else its own result from the batch or its chunk, calls for; no more fail for lack of room than the allocator refused; no other sequence is touched, and without new reservations the work left strictly decreases |
| TokenEngine.TokenGenerationEngine.RunDecode | inference/token_engine.py:438-483 | each chosen sequence has taken its own token, or failed if the backend has none for it; no other sequence is touched, and without new reservations the work left strictly decreases |
| TokenEngine.TokenGenerationEngine.FinishInterrupted | inference/token_engine.py:265-269 | each sequence is stopped as cancelled, or as timed out with the clock at or past its deadline, or left alone, and then it was not cancelled before and the clock was short of its deadline; no work is added |
| TokenEngine.TokenGenerationEngine.Sets | inference/token_engine.py:202-219 | waiting and running split the active sequences, oldest first |
| TokenEngine.TokenGenerationEngine.SameLength | inference/token_engine.py:236-244 | the decode batch is not empty and is exactly those with the shortest caches |
| TokenEngine.TokenGenerationEngine.Decide | inference/token_engine.py:221-249 | the oldest waiting sequences are prefilled first; a decode batch has equal caches and passes over an older sequence only if its cache is longer; never both, within the batch limit, and nothing only when nothing is active |
| TokenEngine.TokenGenerationEngine.Iterate | inference/token_engine.py:251-263 | who was active still is, or has a closed log extending the old one; who was cancelled has ended as cancelled; who is timed out before the batch had the clock at or past its deadline, and everybody else had time left; each of these in the chosen batch has met the outcome that its own backend result calls for, with a verdict that is a timeout exactly if the clock was at or past the deadline when the token came; the loop sleeps only with nothing active, and otherwise without new reservations the work left strictly decreases |
| TokenEngine.TokenGenerationEngine.RunUntilDrained | inference/token_engine.py:251-263 | without new reservations the engine drains, no block stays used, and every sequence ever reserved has a closed log that extends what it had |
| TokenEngine.TokenGenerationEngine.Shutdown | inference/token_engine.py:601-612 | ends closed, with nothing active, zero used blocks and every log closed; without a scheduler task everybody is ended as cancelled; a second call does nothing |
| TokenEngine.TokenGenerationEngine.CancelAll | inference/token_engine.py:609-611 | every active sequence ends as cancelled with nothing else added to its log |
| BatchScheduler.PicksAreMaximal | scheduler/dynamic_batch.py:46-96 | the choice from a list of candidates fills the batch, or looks at all of them and leaves none waiting that would still fit |
| BatchScheduler.PicksAreInTime | scheduler/dynamic_batch.py:46-76 | those that join or wait are exactly the candidates looked at that are neither late nor cancelled, and those that join have the batch's shape |
| BatchScheduler.PicksOneByOne | scheduler/dynamic_batch.py:46-96 | what one more candidate at the end changes: nothing once the batch is full or if it is late or cancelled; else it joins if shape and budget allow it, and waits behind the others if not |
| BatchScheduler.RunnableMembers | scheduler/dynamic_batch.py:109-120 | of a batch exactly those run that are neither cancelled nor late when it starts |
| BatchScheduler.RunnableInOrder | scheduler/dynamic_batch.py:109-120 | those that run keep the order of the batch |
| BatchScheduler.Scheduler.Submit | scheduler/queue.py:17-29 | rejected and resolved, or queued and counted |
| BatchScheduler.Scheduler.Cancel | scheduler/request.py:74-76 | a request that is not terminal is resolved at once |
| BatchScheduler.Scheduler.Close | scheduler/queue.py:31-49 | exactly the queued requests become rejected, resolved unless they were, and only the sentinel remains |
| BatchScheduler.Scheduler.Finish | scheduler/request.py:67-72 | the status changes; the future is resolved only the first time |
| BatchScheduler.Scheduler.TaskDone | scheduler/dynamic_batch.py:48-56 | the unfinished count never goes below what was taken |
| BatchScheduler.Scheduler.Consider | scheduler/dynamic_batch.py:46-76 | late or cancelled candidates are dropped, late ones resolved; compatible ones that fit join; others are deferred; nobody else is affected, and the queue's count follows |
| BatchScheduler.Scheduler.ScanDeferred | scheduler/dynamic_batch.py:78-85 | each deferred request is looked at once and the batch, those kept and where the scan stopped are the specified choice; those kept go behind those not reached, which keeps the arrival order exactly when the scan reached the end or kept nothing |
| BatchScheduler.Scheduler.Collect | scheduler/dynamic_batch.py:33-106 | a bounded batch of one shape within the token budget that starts with the first request; if it is not full, nothing deferred would still fit; undisturbed, batch and deferred requests are the specified choice from the front of the queue |
| BatchScheduler.Scheduler.PutBackSentinel | scheduler/dynamic_batch.py:95-99 | the shutdown signal survives collection |
| BatchScheduler.Scheduler.StartBatch | scheduler/dynamic_batch.py:109-120 | cancelled requests are dropped, late ones resolved as timed out, exactly the others run, in order |
| BatchScheduler.Scheduler.Deliver | scheduler/dynamic_batch.py:130-161 | each result resolves its request as completed, timed out or cancelled; after a wrong result count all records are failed, although the futures handed out before keep that outcome |
| BatchScheduler.Scheduler.ProcessBatch | scheduler/dynamic_batch.py:109-163 | each running request ends with its own outcome: cancelled if it was cancelled during the call, else completed or timed out by its result, else failed (after a wrong result count the records are failed, but futures handed out before keep their outcome); those late at the start time out; all are resolved, also when the call is cancelled; deferred requests change only by their own cancellation |
| BatchScheduler.Scheduler.Wait | scheduler/queue.py:17-49 | of the requests the loop holds exactly those cancelled meanwhile are resolved and nothing else changes; the queue is as the events leave it |
| BatchScheduler.OutlookMeaning | scheduler/queue.py:17-49 | what events make of the open requests in the queue: none are left once it is closed, and before that exactly those that were open and are not cancelled, besides later arrivals |
| BatchScheduler.Scheduler.RunCollected | scheduler/scheduler_loop.py:22-36 | the batch has run and the count is settled; if the worker call was cancelled, every future is resolved if and only if each deferred request was resolved before or is cancelled during the call, and the queue has no open request after it |
| BatchScheduler.Scheduler.TakeTurn | scheduler/scheduler_loop.py:8-39 | between turns the unfinished count is the queue length; the oldest deferred request is resolved in its turn; the loop ends through the sentinel only with queue and deferred empty and every future resolved; cancelled in the idle wait it leaves every future resolved if and only if the events before leave no open request in the queue; undisturbed up to the worker call, the batch is the specified one with the outcomes of ProcessBatch, and if that call is cancelled every future is resolved if and only if each deferred request of the specified choice was resolved before or is cancelled during the call, and the queue has no open request, as is the case once it is closed |
| BatchScheduler.LostAtShutdown | apps/gateway/main.py:46-62 | a run in which the grace period ends during a worker call and a deferred request is never resolved by anything but its own cancellation |
| Admission.DecideKeepsConsistent | serving_platform/admission/controller.py:40-81 | counters stay the sums over reservations and limits hold |
| Admission.MarkRunningKeepsConsistent | serving_platform/admission/controller.py:83-94 | the same when a request starts |
| Admission.ReleaseKeepsConsistent | serving_platform/admission/controller.py:96-106 | the same when it is released |
| Admission.StepKeepsConsistent | serving_platform/admission/controller.py:40-106 | the same for every step of every run |
| Admission.DecideIsExact | serving_platform/admission/controller.py:40-81 | the answer by the reservations alone: already admitted, or the first that fails of tenant, model, context, deadline, healthy worker, global queue, tenant queue, concurrency and quota, or admitted, and exactly then the reservations gain the request; a refusal changes nothing |
| Admission.MarkRunningIsExact | serving_platform/admission/controller.py:83-94 | a waiting reservation runs exactly if fewer of its tenant run than may, and otherwise nothing changes |
| Admission.ReleaseIsExact | serving_platform/admission/controller.py:96-106 | exactly the one reservation goes, and without one nothing changes |
| Admission.CountersCount | serving_platform/admission/controller.py:30-38 | the counters are the numbers of waiting and running reservations and the tokens they hold |
| Admission.DrainedIsZero | serving_platform/admission/controller.py:108-114 | with nothing reserved all counters read zero |
| RedisAdmission.NamesAreDistinct | serving_platform/admission/redis_controller.py:35-48 | no two fields of the shared hash collide, whatever the identifiers |
| RedisAdmission.ReserveSimulates | serving_platform/admission/redis_controller.py:35-66 | the reserve script simulates the in-memory decision |
| RedisAdmission.MarkRunningSimulates | serving_platform/admission/redis_controller.py:68-88 | so does the mark-running script |
| RedisAdmission.ReleaseSimulates | serving_platform/admission/redis_controller.py:90-107 | so does the release script |
| RedisAdmission.StepSimulates | serving_platform/admission/redis_controller.py:168-231 | states stay related; codes differ exactly in the one case |
| RedisAdmission.SharedRunsSimulate | serving_platform/admission/redis_controller.py:168-231 | over whole runs: related, consistent, and equal codes exactly when that case does not occur |
| RedisAdmission.FreshIsRelated | serving_platform/admission/redis_controller.py:128-166 | an empty hash is a fresh controller |
| AdmissionObjects.TenantAdmissionController.constructor | serving_platform/admission/controller.py:21-38 | a fresh controller is consistent |
| AdmissionObjects.TenantAdmissionController.Decide | serving_platform/admission/controller.py:40-81 | the method is the specified decision; the code is the first obstacle by the reservations alone, and they gain the request exactly if it is admitted |
| AdmissionObjects.TenantAdmissionController.MarkRunning | serving_platform/admission/controller.py:83-94 | the method is the specified step |
| AdmissionObjects.TenantAdmissionController.Release | serving_platform/admission/controller.py:96-106 | the method is the specified step |
| AdmissionObjects.SharedStore.EvalReserve | serving_platform/admission/redis_controller.py:35-66 | the script's commands in order give the specified hash |
| AdmissionObjects.SharedStore.EvalMarkRunning | serving_platform/admission/redis_controller.py:68-88 | likewise |
| AdmissionObjects.SharedStore.EvalRelease | serving_platform/admission/redis_controller.py:90-107 | likewise |
| AdmissionObjects.SharedStore.Decide | serving_platform/admission/redis_controller.py:168-212 | checks first, then the script |
| Lease.RedisLease.Acquire | serving_platform/coordination/lease.py:59-67 | takes the key exactly when nobody holds it |
| Lease.RedisLease.Renew | serving_platform/coordination/lease.py:69-78 | extends the key exactly when the caller holds it |
| Lease.RedisLease.Release | serving_platform/coordination/lease.py:80-83 | deletes the key exactly when the caller holds it |
| Lease.RedisLease.IsOwner | serving_platform/coordination/lease.py:85-89 | reads the current holder |
| Lease.ScriptsByHolder | serving_platform/coordination/lease.py:27-38 | whoever holds a lease that has not run out, and nobody else, can extend or give it up; a free key can be taken by anybody |
| Lease.OwnerGoesOn | apps/control_plane/reliability.py:34-62 | a supervisor that still owns the key gets its next pass, with the key extended |
| Lease.LeavingFrees | apps/control_plane/reliability.py:34-62 | a supervisor that leaves while it owns the key frees it, so that another gets in at once; one that does not own it leaves the key alone |
| Lease.StepKeepsGrants | apps/control_plane/reliability.py:34-62 | until its grant runs out a supervisor in a pass owns the key, through every step |
| Lease.OthersCannotTouch | serving_platform/coordination/lease.py:27-38 | until a lease runs out nothing the others do changes it or lets them in |
| Lease.OverlapNeedsOverrun | apps/control_plane/reliability.py:34-62 | two supervisors recover at once only if a pass outlived its grant |
| Lease.OverrunAllowsOverlap | apps/control_plane/reliability.py:46-58 | another supervisor gets in during a pass if and only if the pass has outlived its grant |

## Left out

- Wire formats and outer shell: HTTP routes, streaming frames, authentication, configuration, metrics, tracing and the worker transport are not modelled.
- Neural network code: tensors are opaque elements, one per token and layer, and the inference backend is an oracle that returns a token echoing the requested index or a failure, and does not raise from releasing a sequence or taking a prefix snapshot.
- Shared request records: requests in the fair queue, the worker queue and the batch scheduler are values; a change made by another holder of the same record is a step of its own (`Elsewhere`, `Cancel`).
- Floating point: costs, times and utilisations are reals, so rounding is not captured.
- Queue timestamps: a request in the fair queue carries its queue time as a field instead of a dictionary of transition times.
- TokenEngine.TokenGenerationEngine.Prepare: the set of stored prefixes is an input of the turn instead of a `PrefixCache` object in the engine, and what a snapshot holds is not modelled.
- Identity of sequences: a record's serial number stands for the identity of the object and for its creation time, which follow the same order.
- TokenEngine.TokenGenerationEngine.Wait: stands for every await; the single scheduler task is the only one that finishes sequences.
- Clock of the worker: times of last use are arguments of the methods; the steps of the interleavings take the residents in any order, so the safety results hold for every order.
- Worker queue and worker memory: the two are modelled apart, and `StartBatch` and `EndBatch` are what the executor does to residency.
- Coalesced loads: the counters by which a waiting caller learns that the attempt it joined has failed, and the cache hit and timing metrics of the worker, are not modelled.
- Runtimes that do not report memory: the worker then skips eviction; only the simulated runtime is modelled.
- BatchScheduler.Scheduler.Collect: the collection window is a list of waits of any length; direct callers without a deferred queue, and the one-request path of the other policy, are not modelled.
- BatchScheduler.Scheduler.TakeTurn: for a cancellation while a batch is being collected the contract only says that what is unresolved is in hand, deferred or queued.
- Admission messages: decisions carry their code, not the human-readable reason; the configuration fingerprint check is not modelled and all processes share one configuration.
- Lease.OverlapNeedsOverrun: owner tokens are assumed distinct, as the random identifiers make them.
- Placement reservations, recovery of failed workers, routing scores, registry snapshots and shard balancing are not modelled.
