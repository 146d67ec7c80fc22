# Verified model of the Aperture GPU workload operator and inference server

This project models, in Dafny, the parts of the repository whose correctness depends on interleaving and on whole
runs, and proves what they keep.

**The GPUWorkload reconciler.** `Cluster.dfy` holds the cluster objects, the two builders and the API calls;
`Controller.dfy` is one reconcile pass as a small-step machine, for any population of workloads. Between any two
calls of a pass, users and the cluster may create, edit, mark, scale and delete, other workloads' passes may run and
the operator may crash; every call may fail without effect or after taking effect. `ControllerSafety.dfy` has the
inductive invariant and the safety theorems over all runs, `ControllerProvenance.dfy` traces statuses and Deployments
back to what they came from, `ControllerProgress.dfy` has deletion and convergence.
`Reconciler.dfy` is the imperative form, `Reconcile`, `deleteOwnedResources` and `updateStatus` as methods on a shared
client, each proved to be an execution of the machine; `PassResults.dfy` says what a pass returns and reports.
`Webhook.dfy` is the validator.

**The token quota.** `Ledger.dfy` is the counter as an atomic ledger and as a class, `LockedCounter.dfy` the same
counter with every lock operation, read, comparison and write of every thread as a separate step, proved to refine
the ledger and free of deadlock. `InferenceServer.dfy` is the reserve, run, settle protocol of `/generate` with cancellation, startup and
shutdown, over any number of lifespans of one process. `Text.dfy` and `Fallback.dfy` prove what the CPU fallback
charges; `Decimal.dfy` and `HandOff.dfy` carry the quota from the spec through the pod environment into the server.

**Supporting algorithms.** `Numbers.dfy` (shared arithmetic), `Metrics.dfy` (locked metrics), `LoadTest.dfy` (percentiles and the summary of a load
level), `CachePath.dfy` (model name to cache directory).

## Assumptions

- Passes for one key are serial; passes for different keys may interleave. Reads return the stored object. An update
  with a stale resource version is rejected. Writing a status that is already stored does not change the object.
- Only the operator removes its own finalizer and writes the status; nobody else creates objects with the child names.
  An admission webhook refuses invalid specs on creation and on update. Delete removes the object at once.
- Every child name and label value is accepted. The API server refuses a label value over 63 characters and a Service
  name that is over 63 characters, has a dot in it or begins with a digit, so for a real cluster the convergence theorems
  are about workload names of at most 59 characters that begin with a letter and have no dot.
- Of the finalizers, only membership matters, so they are a set. Resource versions and uids come from one increasing
  revision counter.
- The engine is an arbitrary outcome: it raises, returns nothing, or returns any number of tokens.
- Latencies, percentages and averages are reals, the rounding of floats is not modelled.

## Where the code differs from what is said about it

- `operator/controllers/gpuworkload_controller_test.go:73-95` expects the Service after the second pass. The code
  returns after creating the Deployment, so a new workload needs a third: `ServiceAfterTwoPasses` says exactly when two
  passes are enough.
- `operator/api/v1alpha1/gpuworkload_webhook.go:28` documents 1 to 8 GPUs; the code admits 0 as well (`ValidateCreate`).
- The traces read `PARTITION_MODE`, but the operator sets `GPU_PARTITION_MODE`, so in its pods they always record
  `unknown` (`PartitionModeIsNotTraced`).
- The type comments promise a Completed phase; no run ever writes it (`RunsAreSafe`).
- The exported counter is called the number of tokens generated. At rest it is that number exactly when no request was
  cancelled (`CounterAtRest`).
- The counter can exceed the quota by what the engine returns beyond its reservations (`QuotaBound`), and for every quota
  and every such excess it does in some run (`BoundIsTight`). Within one lifespan the quota holds in all runs exactly when
  fallback mode is on, no engine is loaded or the quota is below 1 (`QuotaHoldsInLifespan`); over all lifespans exactly
  when fallback mode is on, the quota is below 1, or there is no engine and none can be loaded (`QuotaHoldsForever`). For
  an admitted workload that means: exactly when it has no GPUs or vLLM is missing (`PodKeepsQuota`).
- The fallback flag is never reset, so a later lifespan in one process can have both an engine and fallback mode. It
  happens in every process that can load an engine and in no other (`BothModes`; `StartupDichotomy` for one startup).
- A model name with `--` or `-/` in it cannot be recovered from its directory (`RestoreSafeName`), and always shares the
  directory with another name that has neither (`AmbiguousNamesCollide`).
- The quota a server runs with need not be the one in the spec. An existing Deployment keeps what it was built with
  (`BuildIsFixed`), and what it was built with is what a pass fetched earlier: an edit between that fetch and the creation
  is lost too, since creation does not depend on the resource version. `EditOvertaken` is the failing run, for any two
  admitted specs with different quotas. The quotas agree exactly when the last edit to take effect after the fetch, if
  any, asked for the deployed quota (`DeployedQuota`).

## Model

| member | source | states |
|---|---|---|
| Controller.Isolation | operator/controllers/gpuworkload_controller.go:121-157 | a step for one workload (call, fault, crash or user change) leaves every other workload's object, Deployment, Service, status and pass untouched |
| Cluster.ChildNamesInjective | operator/controllers/gpuworkload_controller.go:121-155 | two workloads whose Deployment or Service names coincide in one namespace are the same workload |
| ControllerSafety.CallKeepsInv | operator/controllers/gpuworkload_controller.go:68-217 | every call of a pass, with any fault, keeps the invariant: no orphans, fresh local copies, right incarnation, coherent status |
| ControllerSafety.RunsAreSafe | operator/controllers/gpuworkload_controller.go:88-179 | in every reachable state a Deployment or Service implies that the workload with the owner's uid is in the store and carries the finalizer; phases are only empty, Pending, Running, Failed, with the right pod name |
| ControllerSafety.ChildPinsWorkload | operator/controllers/gpuworkload_controller.go:88-103 | while a child exists no step of anyone makes the workload vanish, replaces it by a new incarnation or releases its finalizer |
| ControllerSafety.OperatorIsRestrained | operator/controllers/gpuworkload_controller.go:88-150 | operator calls change nothing of the workload but the own finalizer and status (no lost updates), let it vanish only when marked and otherwise unheld, never edit a child, never delete a child of an unmarked workload |
| ControllerProvenance.RunningIsEarned | operator/controllers/gpuworkload_controller.go:184-196 | over whole runs, a stored Running carries replica counts with ready >= desired > 0, and the Deployment owned by that same incarnation really had those counts at some moment of the run |
| ControllerProvenance.DeploymentFromFetch | operator/controllers/gpuworkload_controller.go:121-137 | every Deployment of a reachable state was built from the spec that its owner, which is still the stored incarnation, held at an identified fetch of the run |
| ControllerProvenance.NewDeployment | operator/controllers/gpuworkload_controller.go:222-260 | a Deployment appears only in a pass of its own stored workload; it desires exactly one replica, reports none, and selects its own pods |
| ControllerProvenance.NewService | operator/controllers/gpuworkload_controller.go:439-457 | a Service appears only in a pass of its own stored workload, and carries the two labels it selects by |
| ControllerProvenance.BuildIsFixed | operator/controllers/gpuworkload_controller.go:121-150 | no step of anyone changes owner, labels, selector or template of an existing Deployment: it stays as built or is removed |
| ControllerProvenance.QuotaFollowsEdits | operator/controllers/gpuworkload_controller.go:88-216 | over whole runs, the quota of a living incarnation is that of the last edit that took effect; nothing the operator or the cluster does changes it |
| Controller.PhaseMeaning | operator/controllers/gpuworkload_controller.go:190-214 | with a missing replica count taken as one, the computed phase is Running exactly when ready >= desired > 0, Failed exactly when not and some replicas are unavailable and some condition reports a replica failure, Pending otherwise |
| Controller.FailureMessageFound | operator/controllers/gpuworkload_controller.go:198-204 | the reported failure is that of the first replica-failure condition, and there is one exactly when such a condition exists |
| Controller.StatusMeaning | operator/controllers/gpuworkload_controller.go:190-214 | every computed status names the Deployment; Running carries its counts, Failed the message of the first replica-failure condition, Pending whether pods are unavailable or not there |
| ControllerSafety.StatusForIsCoherent | operator/controllers/gpuworkload_controller.go:190-214 | the status computed from any Deployment names the Deployment, and is Running only with ready >= desired > 0 |
| ControllerSafety.ServiceSelectsOwnPods | operator/controllers/gpuworkload_controller.go:249-271 | in every reachable state, a Service selects the pods of a Deployment in its namespace exactly when both belong to the same workload |
| ControllerSafety.DeploymentSelectsOwnPods | operator/controllers/gpuworkload_controller.go:249-271 | in every reachable state the selector of a Deployment matches the pods of a Deployment in its namespace exactly when it is the same one |
| ControllerSafety.SelectorMatches | operator/controllers/gpuworkload_controller.go:453-456 | the Service selector matches the pod labels of a same-namespace workload exactly when it is the same workload, whatever its spec |
| Controller.CallDescends | operator/controllers/gpuworkload_controller.go:68-217 | whatever fails and whatever the cluster holds, each call brings the pass closer to its end, which comes within six calls |
| ControllerProgress.DeletionDrains | operator/controllers/gpuworkload_controller.go:131-178 | once an incarnation is marked, any continuation creates at most one more child for it, and none if no pass that saw it unmarked is in flight; its children never exceed those present plus that one |
| ControllerProgress.CleanPassDrains | operator/controllers/gpuworkload_controller.go:470-504 | one undisturbed pass over a marked workload removes both children and the finalizer; the object vanishes exactly when nobody else's finalizer holds it |
| ControllerProgress.PassProgress | operator/controllers/gpuworkload_controller.go:108-216 | a lexicographic measure of what is missing strictly drops on every undisturbed pass, and a pass changes nothing at all exactly when nothing is missing |
| ControllerProgress.NothingMissing | operator/controllers/gpuworkload_controller.go:184-214 | nothing is missing exactly when finalizer, Deployment and Service exist and the phase is the one computed from the Deployment |
| ControllerProgress.ThreePassesSuffice | operator/controllers/gpuworkload_controller.go:108-216 | from any unmarked state three undisturbed passes reach a state that a further pass leaves unchanged |
| ControllerProgress.ConvergesUnderDrift | operator/controllers/gpuworkload_controller.go:108-216 | also with spec edits, scaling and Deployment status reports between the passes, three of them leave all pieces in place and the phase of the last Deployment seen, and a further pass changes nothing |
| ControllerProgress.LifeCycle | operator/controllers/gpuworkload_controller.go:68-217 | for every name and admitted spec: two passes make a new workload Pending, a third after its pod is ready makes it Running behind a Service, and one after its deletion leaves no object of it |
| ControllerProgress.CutPassLosesNothing | operator/controllers/gpuworkload_controller.go:108-216 | a pass over an unmarked workload that meets any faults and is cut short anywhere never leaves more missing than it found |
| ControllerProgress.ThreeCleanAmongFaulty | operator/controllers/gpuworkload_controller.go:108-216 | any sequence of passes that contains three undisturbed ones, with any number of failing ones before, between and after, ends with nothing missing |
| ControllerProgress.ServiceAfterTwoPasses | operator/controllers/gpuworkload_controller_test.go:73-95 | two passes produce the Service exactly when the finalizer was there before the first |
| Reconciler.GPUWorkloadReconciler.Reconcile | operator/controllers/gpuworkload_controller.go:68-217 | the final store, the result and the number of API calls are those of the pass machine run on the same faults and interference |
| Reconciler.GPUWorkloadReconciler.DeleteOwnedResources | operator/controllers/gpuworkload_controller.go:470-504 | runs the machine from the Deployment lookup to the point before the finalizer is removed, or to the error it returns |
| Reconciler.GPUWorkloadReconciler.ReportReadiness | operator/controllers/gpuworkload_controller.go:184-216 | the readiness switch with its loop over conditions does what the status computed from the Deployment calls for |
| Reconciler.GPUWorkloadReconciler.SendStatus | operator/controllers/gpuworkload_controller.go:507-528 | one status write, ending the pass, or a retry with the error |
| Reconciler.CompleteIsRun | operator/controllers/gpuworkload_controller.go:68-217 | every pass, whatever befalls its calls, is a run of the cluster machine with at most six calls, so every theorem over runs applies to it |
| Reconciler.ReconcileIsSafe | operator/controllers/gpuworkload_controller.go:88-179 | a pass started in any reachable state leaves no orphan of any workload |
| Reconciler.QuietPassIsClean | operator/controllers/gpuworkload_controller.go:68-217 | without interference and faults `Reconcile` is the pass for which draining and convergence are proved |
| PassResults.QuietResult | operator/controllers/gpuworkload_controller.go:108-115 | without faults and interference a pass returns a requeue if and only if the workload is there, unmarked and without the finalizer, and is finished otherwise |
| PassResults.LastCallDecides | operator/controllers/gpuworkload_controller.go:68-217 | whatever befalls a pass, every call but the last succeeded or failed in a tolerated way (a lookup or deletion of what is not there, a creation), and the last one decides the result |
| PassResults.ResultIsJustified | operator/controllers/gpuworkload_controller.go:68-217 | under any faults and interference: Finished if and only if every call passed and none added the finalizer; a requeue if and only if the last call added it; a delayed retry if and only if the status write failed; an error if and only if another call failed, with its error |
| PassResults.CreationIsReported | operator/controllers/gpuworkload_controller.go:133-143 | a pass that sends a Deployment then only writes a status: Pending with its name, or Failed with an empty pod name and the error; that is stored when the write gets through |
| Ledger.TokenCounter.TryReserve | inference/server.py:88-98 | result and new value are those of the atomic reservation, and the lock is released on both exits |
| Ledger.TokenCounter.Adjust | inference/server.py:100-105 | the new value is that of the atomic settlement, and the lock is released |
| Ledger.ResultsAreExact | inference/server.py:84-105 | in any run a reservation is granted if and only if it fits what is left of the quota and is told what was left, a settlement returns the difference, a read sees the counter |
| Ledger.AdmissionIsGreedy | inference/server.py:88-98 | without settlements the admitted requests and the final value are the greedy first-fit fold in order |
| Ledger.UniformAdmission | inference/test_server.py:94-113 | N requests of size k admit exactly min(N, quota / k) and leave k times that |
| LockedCounter.RunRefinesLedger | inference/server.py:77-105 | any interleaving of any number of threads, with unlocked reads, is a run of the atomic ledger: the effects replay to the counter and to every result, and each thread gets its results in its order |
| LockedCounter.EffectIsAtomic | inference/server.py:93-105 | the step at which an operation takes effect does to the counter exactly what the atomic operation does, and no other step touches it |
| LockedCounter.ConcurrentGreedy | inference/server.py:88-98 | in every interleaving of reservations of any sizes the admitted ones are the greedy selection in the order in which they took effect |
| LockedCounter.ConcurrentAdmission | inference/server.py:88-98 | in every interleaving, also with calls still in flight, as long as no thread is inside the lock: of the calls returned so far as many were admitted as fit, and the counter is k times that |
| LockedCounter.SoloCall | inference/test_server.py:35-65 | from a free lock an undisturbed call has exactly the value and result of the atomic operation, returns it and leaves the lock free |
| LockedCounter.AllCallsReturn | inference/server.py:93-105 | no deadlock: from every reachable state of any schedule all calls in flight can return, without new calls |
| LockedCounter.UniformOnceReturned | inference/test_server.py:94-113 | once all N calls reserving k tokens have returned, exactly min(N, quota / k) of the N were admitted and the counter is k times that, in every interleaving |
| LockedCounter.UniformReturns | inference/test_server.py:94-113 | and every such run can be continued to that point without new calls |
| InferenceServer.Conservation | inference/server.py:391-461 | in every reachable state of any interleaving the counter is the tokens charged, plus reservations in flight, plus reservations abandoned by cancellation |
| InferenceServer.CounterAtRest | inference/server.py:409-461 | with nothing in flight the counter is the sum of tokens returned exactly when no request was cancelled |
| InferenceServer.QuotaBound | inference/server.py:93-105 | in every run 0 <= counter <= quota (or 0 for a negative quota) plus the total of what answers took beyond their reservations |
| InferenceServer.BoundIsTight | inference/server.py:93-105 | for every quota and every overrun an engine has a run within one lifespan, allowed by the event loop, that ends exactly that far over the quota |
| InferenceServer.QuotaHoldsInLifespan | inference/server.py:384-455 | in all runs of one lifespan counter <= quota, if and only if fallback mode is on, no engine is loaded or the quota is below 1; the same for the runs the event loop allows |
| InferenceServer.QuotaHoldsForever | inference/server.py:120-168 | in all runs over any lifespans counter <= quota, if and only if fallback mode is on, the quota is below 1, or there is no engine and the configuration cannot load one |
| InferenceServer.ProcessKeepsQuota | inference/server.py:120-161 | a new process comes up in exactly one mode, the engine exactly when it can and does load, and all its runs keep the quota if and only if it cannot use the GPU |
| InferenceServer.FallbackQuotaBound | inference/server.py:408-419 | from fallback mode on 0 <= counter <= quota in every run, later lifespans included |
| InferenceServer.StartupDichotomy | inference/server.py:120-161 | after startup exactly one of engine and fallback mode holds, except exactly when an earlier lifespan left the fallback flag set and the engine loads |
| InferenceServer.ModesAreStable | inference/server.py:120-168 | the fallback flag is never taken back, an engine comes only from a startup that can load one, and within a lifespan the modes stay until shutdown, which only unloads the engine |
| InferenceServer.LifespanModes | inference/server.py:120-168 | in every run of a process, a running lifespan has an engine or fallback mode, and between lifespans there is no engine |
| InferenceServer.BothModes | inference/server.py:143-161 | a state with both an engine and fallback mode is reachable exactly in the processes that can load an engine |
| InferenceServer.CallsFindEngine | inference/server.py:384-429 | on the event loop every request that reaches the engine call finds the engine loaded and fallback mode off, in every run, shutdowns and startups included |
| InferenceServer.EnterDecides | inference/server.py:384-408 | 503 if and only if neither mode holds; else 429, with the counter unchanged, if and only if the request exceeds what is left; else exactly its tokens are reserved, for the fallback path if and only if fallback mode is on |
| InferenceServer.RequestsGetTheirFate | inference/server.py:384-461 | from any state a valid request that nothing interferes with gets exactly its answer: 503, 429, in fallback mode min(max_tokens, 16 + words of the prompt) tokens, else what the engine returns or 500; the counter moves by exactly the tokens of the answer; an invalid request leaves no trace |
| InferenceServer.ReplyDecides | inference/server.py:427-455 | a reply is an answer if and only if the engine is loaded and returns something; otherwise a failure that gives the whole reservation back |
| InferenceServer.CancellationKeepsReservation | inference/server.py:408-419 | from any state, a request cancelled at the await leaves its reservation in the counter |
| InferenceServer.NoModelNoService | inference/server.py:126-130 | a process without a model path never comes up in any run, and serves nothing |
| InferenceServer.Process.Generate | inference/server.py:377-461 | every exit of `generate` up to its await: the counter, the modes and the outcome are those of the protocol |
| InferenceServer.Process.Continue | inference/server.py:410-419 | the rest of the fallback path settles the reservation to the number of words of the text it returns |
| InferenceServer.Process.Start | inference/server.py:120-163 | startup sets the two globals as the startup function says, or refuses an empty model path and leaves them |
| Fallback.Generate | inference/server.py:411-419 | the charge is min(max_tokens, 16 + words of the prompt); splitting the returned text gives that many words, a prefix of the words of the full text; an uncut text has the prompt in it character by character, after the marker and before the fixed sentence |
| Fallback.FullWords | inference/server.py:411-412 | the full text splits into two fixed words, the words of the prompt in order and fourteen fixed words |
| Text.SplitAtSpace | inference/server.py:412 | splitting distributes over concatenation at a whitespace character |
| Text.SplitJoin | inference/server.py:414-415 | joining words with spaces and splitting again is the identity |
| Text.CountWords | inference/server.py:412-416 | the number of words is the number of positions where a word begins |
| Decimal.ParsePrint | operator/controllers/gpuworkload_controller.go:296-299 | parsing the printed decimal gives back every integer |
| HandOff.QuotaSurvives | inference/server.py:68-70 | the server reads back the quota, cache size and model of the spec, for every spec |
| HandOff.GpuAgreement | operator/controllers/gpuworkload_controller.go:229-247 | USE_GPU is set exactly when the pod gets the GPU resource, if and only if the GPU count is not negative |
| HandOff.TemplateCarries | operator/controllers/gpuworkload_controller.go:229-311 | for every spec the pod has the GPU resource if and only if the count is positive, and then exactly that count in limits and requests; model, quota, cache and partition mode in environment and labels are those of the spec |
| HandOff.DeployedSpec | operator/controllers/gpuworkload_controller.go:121-137 | every Deployment in a reachable cluster asks for the GPU count, model, quota, cache and partition mode its workload had at an identified fetch |
| HandOff.UseGpuExactly | inference/server.py:71 | the server wants the GPU if and only if the variable spells true in any case, or is missing |
| HandOff.Defaults | inference/server.py:69-70 | without the variables the quota is 100000 and the cache 4 |
| HandOff.PartitionModeIsNotTraced | inference/tracing.py:63 | the partition mode of the spec never reaches the traces |
| Webhook.ValidateCreate | operator/api/v1alpha1/gpuworkload_webhook.go:34-99 | exactly the violated rules are reported, and a spec is admitted if and only if there are none |
| HandOff.DeployedQuota | operator/controllers/gpuworkload_controller.go:121-137 | every Deployment in a reachable cluster hands over a quota in 1..100000, the one its owner had at an identified fetch; it is the quota now in the spec if and only if the last edit since that fetch, if any, asked for it |
| HandOff.EditOvertaken | operator/controllers/gpuworkload_controller.go:124-137 | for any two admitted specs with different quotas, a run in which the edit is stored before any Deployment exists and the Deployment created next hands over the old quota |
| HandOff.DeployedQuotaHolds | operator/api/v1alpha1/gpuworkload_webhook.go:66-82 | the quota a Deployment hands over bounds the counter of a process started with it in fallback mode, in every run |
| HandOff.PodKeepsQuota | operator/controllers/gpuworkload_controller.go:229-232 | a server in an admitted pod comes up in exactly one mode; over all its lifespans the counter keeps within the quota of the spec, if and only if the workload has no GPUs or vLLM is missing |
| Metrics.SnapshotsAreConsistent | inference/server.py:188-203 | in every interleaving every locked read reports the average over exactly the first `total` recorded latencies |
| Metrics.AverageIsBetween | inference/server.py:300-302 | such an average lies between the least and greatest of those latencies, and is 0 when there are none |
| Metrics.RequestMetrics.Record | inference/server.py:201-203 | one more latency is counted and summed |
| Metrics.RequestMetrics.Read | inference/server.py:353-355 | total and average agree with everything recorded |
| Metrics.SoloOperation | inference/server.py:188-203 | an operation that runs undisturbed through the lock steps does to the two globals what the methods of the class do |
| LoadTest.PercentileRank | inference/benchmarks/load_test.py:89-92 | for a non-empty sorted list and 0 <= pct <= 100 the index is in range, at most pct percent of the samples are below the result and more than pct percent are at most the result; at 100 it is the greatest |
| LoadTest.PercentileMonotone | inference/benchmarks/load_test.py:89-92 | higher percentiles are no smaller, and all lie between the extremes |
| LoadTest.RunLevel | inference/benchmarks/load_test.py:95-125 | the collected results are the completions in order, and the summary is that of their successful latencies |
| LoadTest.SummaryIgnoresOrder | inference/benchmarks/load_test.py:106-123 | any two completion orders of the same results give the same summary |
| LoadTest.SummaryIsOrdered | inference/benchmarks/load_test.py:113-123 | min <= p50 <= p95 <= p99 <= max, where min and max are latencies that occurred and bound all others |
| LoadTest.SummaryPercentiles | inference/benchmarks/load_test.py:118-120 | a value is the p50, p95 or p99 of the latencies as they came in, by counting those below and at most it, if and only if it is the one reported |
| LoadTest.PercentileIsUnique | inference/benchmarks/load_test.py:89-92 | that count condition fixes the value |
| LoadTest.SummaryMean | inference/benchmarks/load_test.py:121 | the reported mean is the sum of the latencies as they came in over their number |
| LoadTest.EveryRequestCounted | inference/benchmarks/load_test.py:113-123 | successes are exactly the successful results, successes and failures add up to the total, and without a success every time is 0 |
| LoadTest.LatenciesAreSuccesses | inference/benchmarks/load_test.py:110-111 | there is one latency for each successful result |
| LoadTest.LatenciesAreTheirs | inference/benchmarks/load_test.py:110-111 | a value is among the latencies if and only if it is that of a successful result |
| LoadTest.Throughput | inference/benchmarks/load_test.py:124 | throughput times the time taken is the number of successes; 0 when no time was taken |
| LoadTest.SortedIsUnique | inference/benchmarks/load_test.py:111 | a sorted list is determined by its elements |
| CachePath.RestoreSafeName | inference/model_preloader.py:32-35 | undoing the encoding leftmost-first recovers the name exactly when it has no `--` and no `-/` |
| CachePath.NoSlash | inference/model_preloader.py:34 | the encoded name never contains a slash |
| CachePath.PathIsInCache | inference/model_preloader.py:32-35 | the directory is an entry directly in the cache directory, except for the empty name and `.`, which give the cache directory itself |
| CachePath.DirectoriesAreDistinct | inference/model_preloader.py:32-35 | two such names share a directory only when equal, or when both are the empty name or `.` |
| CachePath.RestoreIsCanonical | inference/model_preloader.py:32-35 | every directory name without a slash is the encoding of a name that meets the condition, the restored one |
| CachePath.AmbiguousNamesCollide | inference/model_preloader.py:32-35 | every other name shares its directory with a different name that does meet the condition |

## Left out

- HTTP, request parsing, response and error formatting, logging, Prometheus text and tracing: plumbing around the modelled state.
- vLLM, torch and huggingface_hub: libraries that are not part of the repository; only their outcomes appear.
- Informer staleness, owner-reference garbage collection, rollouts, RBAC, leader election and event queues; that a pass is run again is assumed.
- Overlapping passes of two operator processes, one of which has just crashed with a request still in flight.
- Probes, volumes, security contexts, images, constant environment entries, ports and memory and CPU quantities of the Deployment: constants.
- Status conditions, start time and observed generation of a workload: never written by the operator.
- Generated deepcopy, scheme registration, `operator/main.go`, Helm charts, manifests and scripts: boilerplate and configuration.
- Model download, the cached check and the ready marker: file-system effects.
- `inference/benchmarks/ttft_measure.py`: the same percentile, otherwise I/O.
- Unicode digits in `int()` and the rounding of reported latencies.
- A request whose handler raises through the metrics middleware is not recorded, and so does not appear in the metrics model.
