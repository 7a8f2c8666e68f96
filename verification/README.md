# MXJob reconciler: a verified model

The operator keeps one MXJob in step with its cluster. Each pass (`Sync`) reads the persisted job, lists
the job's pods, reconciles scheduler, server and worker pods and the scheduler's service, edits a
condition list and per-type counters in memory, may create or delete pods concurrently, may issue
webhooks, and only then, if nothing failed, writes the new status. Any API call may fail; a failed pass
throws its status away but not the pods it created or deleted.

The project models this in three layers and proves them consistent with each other.

1. **Values.** `Types`, `Labels`, `Conditions`, `Pods`, `Services` and `Pass` give every operation as a
   function of its inputs and of the API server's replies. `Verdicts`, `Counters`, `Statuses`, `Dates`,
   `Claims` and `Aborts` prove what a single pass decides, counts, keeps, dates, patches, and when it
   stops, for every persisted status and every cluster.
2. **Code.** `FanOut` is the machine that runs the two goroutine fan-outs under every interleaving: a
   mutex, a buffered error channel, a wait group, and counter updates that are a load and a store;
   `Hooks` runs the webhook goroutine on it.
   `Live` and `Handler` hold the job status on the heap (counter cells, time cells, a condition array)
   and run the pass on it in place. `Handler.Sync` is proved equal to one step of a run.
3. **Runs.** `Runs`, `Stability`, `Outlooks` and `Histories` are about every sequence of passes with
   arbitrary replies, interleaved with pods that change phase, are marked, vanish or appear, services
   that come and go, and the job's own deletion. `Witnesses` holds three concrete runs.

How the API server answers is part of the input. A create may be accepted, time out or fail, and after a
timeout or an error the pod may exist or not. A delete may mark the pod or remove it at once, and after
an error the pod may be in any of the three states. An update that fails may have been applied. The
clock is read at each program point of a pass.

A pass is one step although the cluster may change while it runs. A pass looks at the pods only when it
lists them, so a change after the listing is the same as a change after the pass.

Assumptions taken from the surroundings: all three replica specs are present (the custom resource
definition demands them, and `genMXConfigEnv` dereferences them); passes for one job are serial and
start from the last persisted job; only the controller writes the status. `FilterActivePods`,
`ClaimObject` and `CanAdopt` are modelled from the Kubernetes 1.9 sources the operator is built with.

Where the code differs from its comments, or from what one may expect, the model follows the code:

- The comment on `createNewPod` says a pod whose create timed out exists, or else that a new one will be
  created. The code treats it as created and never creates it again once the job is initialized; the
  model lets it exist or not. `Counters.NextVerdict` says exactly what follows, and
  `Witnesses.TimeoutFailsJob` is a run in which one such create fails the whole job.
- `reconcileServices` passes a controller reference for the service it creates, but `createServices`
  drops it, so the service starts as an orphan and the next pass adopts it.
- `reconcileServices` swallows timeouts, but `RealServiceControl` wraps every create error, so a real
  timeout arrives as an ordinary error. The model keeps the branch and allows both replies.
- `terminateMXJob` moves a pod to the gone counter even when deleting it failed.
- A job with more succeeded workers than replicas is not successful; it gets no verdict at all while
  nothing fails or vanishes (`Outlooks.SurplusStaysOpen`, `Witnesses.SurplusIsNeverJudged`).
  `Outlooks.SuccessIsEnoughWorkersIff` says exactly when this cannot happen.
- A failure that was announced by the finish hook but not yet persisted can still turn into success,
  because a worker that is being deleted may finish successfully (`Witnesses.VerdictCanFlip`).
  `Outlooks.FailureIsFinalIff` and `Outlooks.SuccessIsFinalIff` say exactly when a verdict is safe.
- The snapshot for the update gate is taken after the Created condition is set, so a pass that adds only
  Created would not write it. `Runs.UpdateIffChanged` shows that no run gets there.

## Model

| member | source | states |
|---|---|---|
| Labels.SelectorAgreesWithSwitch | pkg/mx/handler.go:491-501 | for every pod, the selector used for counting and the label switch used for terminating assign the same replica type |
| Labels.LabelRoundTrip | pkg/mx/handler.go:516-526 | whatever labels the template carries, a new pod is claimed by its job, counted under its own type and under no other |
| Claims.TemplateKept | pkg/mx/handler.go:516-526 | a new pod keeps every label of its own type's template that the job does not set itself and has no others |
| Labels.FilterPodsForReplicaType | pkg/mx/handler.go:801-818 | the loop returns exactly the pods of the type, in listing order |
| Conditions.SetEffect | pkg/mx/handler.go:892-908 | on any list: other types keep entries and order, the type gets the new status and reason at the end of the list, its transition time moves only with its status, its update time with every replacement, and an equal entry changes nothing |
| Conditions.SetIsMapUpdate | pkg/mx/handler.go:892-908 | with unique types the list stays unique and the update is a map update |
| Conditions.RetractIsMapUpdate | pkg/mx/handler.go:606-616 | retracting keeps types unique, is a map update to False, and does nothing if the type is absent |
| Conditions.RetractEffect | pkg/mx/handler.go:606-616 | retracting leaves no true entry of the type and touches no other type; an entry it turns over gets its transition time and reason and keeps its update time |
| Conditions.TestsAgree | pkg/mx/util.go:9-16 | with unique types the any-match finished test and the first-match condition test agree |
| Conditions.TestsDisagree | pkg/mx/util.go:9-16 | a list with a repeated type on which they do not agree |
| Conditions.GetCondition | pkg/mx/handler.go:873-881 | the scan returns the first condition of the type |
| Conditions.GetIsFirst | pkg/mx/handler.go:873-881 | in a list with repeated types it is the earliest entry that is found |
| Conditions.CheckCondition | pkg/mx/handler.go:884-887 | true iff the first condition of the type is True |
| Conditions.FilterOutCondition | pkg/mx/handler.go:916-925 | the scan keeps exactly the other types, in order |
| FanOut.InvStep | pkg/mx/handler.go:384-396 | one step of any goroutine keeps mutual exclusion, the freshness of a loaded counter, the exact account of all counters, of the channel and of the wait group, and uses up one instruction |
| FanOut.SendNeverBlocks | pkg/mx/handler.go:476-487 | in every reachable state a goroutine about to send finds room in the error channel |
| FanOut.SomeoneRuns | pkg/mx/handler.go:397-397 | while the wait group is not empty some goroutine can run |
| FanOut.EveryScheduleAgrees | pkg/mx/handler.go:376-403 | every schedule is bounded, stops only with an empty wait group, and then all counters and the number of errors are the same whatever the order |
| FanOut.RunAll | pkg/mx/handler.go:376-403 | running goroutines in arbitrary order ends with every counter updated exactly once per update, and reports an error iff one was sent |
| Pods.CreatePods | pkg/mx/handler.go:376-403 | under every interleaving active loses one per failed create, and an error is returned iff some create failed |
| Pods.DeletesAddUp | pkg/mx/handler.go:474-503 | the delete goroutines together move each pod from its type's active to its gone counter and send one error per failed delete |
| Pods.SurvivorsNum | pkg/mx/handler.go:466-513 | deleting the active pods, however the calls fare, leaves succeeded and failed pods in place, adds none, and leaves none active if every call succeeded |
| Pods.ActiveExactly | pkg/mx/handler.go:468-473 | the pods taken as active are, as often as listed, those that are neither Succeeded nor Failed nor marked for deletion, whatever their phase |
| Pods.PodCounts | pkg/mx/handler.go:361-411 | every pod counts for its own type only, as succeeded, failed, active or leaving by its phase and deletion mark |
| Pods.SurvivorsSettled | pkg/mx/handler.go:474-513 | if every delete is accepted, every pod that is left is Succeeded, Failed or marked for deletion |
| Pods.SurvivorsKept | pkg/mx/handler.go:474-513 | however the deletes fare, finished and leaving pods are still there, and nothing is there that was not, but for its deletion mark |
| Pods.BornNum | pkg/mx/handler.go:516-550 | n create calls add at most n pods, all active and of the right type, and exactly n if every one appears |
| Verdicts.SettledEffect | pkg/mx/handler.go:189-221 | after the three reconcilePods calls the status carries exactly the reference verdict, although Failed may have been set and retracted on the way, and the observed counters |
| Verdicts.ReachedEffect | pkg/mx/handler.go:553-616 | verdict refinement for every unfinished status and cluster: Succeeded iff as many workers succeeded as replicas, Failed iff not and some type has a failed or gone pod, never both; Running is marked iff a worker is active |
| Verdicts.SyncEffect | pkg/mx/handler.go:177-252 | a pass either stops early with the persisted status, hooks and deletes untouched, or its end, status, pods, calls and hooks are determined by the verdict and the replies |
| Aborts.StopsExactly | pkg/mx/handler.go:177-221 | a pass over an unfinished job is cut short iff the pods cannot be listed, a create it needs is answered with an error, or the services cannot be listed, claimed or, if none is usable, created; it has then done the stages before and nothing else, issued no hook and kept the status; otherwise it creates exactly the missing pods |
| Counters.PassConserves | pkg/mx/handler.go:361-415 | per type active + succeeded + failed + gone + pods already leaving equals the larger of replicas and pods, before and after termination; succeeded and failed are those of the listing, no counter is negative and all fit 32 bits |
| Counters.FinishedMeansTerminated | pkg/mx/handler.go:232-246 | a finished status is written only if every active listed pod was deleted, so that every listed pod still there is finished or marked for deletion; active is then zero for all types iff the job was initialized before or nothing was missing |
| Counters.SecondPass | pkg/mx/handler.go:241-249 | the pass after an undecided pass whose status was written: if every create produced a pod it recomputes the same status, writes, creates and deletes nothing and issues no hook; if not, it decides failure unless cut short, creates nothing and deletes every active pod |
| Counters.NextVerdict | pkg/mx/handler.go:516-550 | after an undecided pass whose status was written the job is undecided iff every create produced a pod, and failing otherwise |
| Statuses.ReachedKeeps | pkg/mx/handler.go:892-908 | a pass keeps condition types unique, moves a transition time only with its status, and never rewrites a start or completion time |
| Statuses.ReachedTimes | pkg/mx/handler.go:562-587 | a pass sets the start time exactly when all workers are active and it was absent, and the completion time exactly when all workers have succeeded and it was absent |
| Statuses.ReachedBlank | pkg/mx/handler.go:590-597 | a pass without a verdict adds no Succeeded or Failed entry, not even a False one |
| Runs.EveryRunIsCoherent | pkg/mx/handler.go:136-175 | in every run: unique types, each condition with its own reason, never both verdicts, no verdict entry while unfinished, completion time iff Succeeded, Initialized only with Created |
| Runs.GateAgreesOverRuns | pkg/mx/util.go:9-16 | in every reachable state the finished test agrees with the first-match test |
| Runs.FinishedIsAbsorbing | pkg/mx/handler.go:160-163 | once a finished status is persisted, erasing all later passes changes neither status nor cluster, and those passes issue no call and no hook |
| Runs.LifecycleOverRuns | pkg/mx/handler.go:223-229 | Created and Initialized are never retracted, every written status has both, and after Initialized is persisted no pod is created |
| Runs.UpdateIffChanged | pkg/mx/handler.go:241-249 | in every reachable state a pass that reaches the gate attempts an update iff its status differs from the persisted one |
| Runs.SyncPods | pkg/mx/handler.go:356-416 | any pass keeps finished pods, stays within the requested number, creates none once initialized, and loses none unless it deletes |
| Runs.NeverOverProvisioned | pkg/mx/handler.go:359-403 | in every run a type never has more pods than at the start or than its replicas, plus those of the type that appeared outside a pass |
| Runs.MissingNeverGrows | pkg/mx/handler.go:371-403 | until the controller deletes, and unless pods vanish by themselves, no type loses a pod |
| Runs.NeverTwoServices | pkg/mx/handler.go:419-463 | in every run the job never gets a second usable service, beyond those it started with and the usable ones that appeared outside a pass |
| Stability.JudgeStable | pkg/mx/handler.go:590-597 | a verdict depends only on finished pods and, once initialized, on a shortfall that deletions can only enlarge |
| Stability.VerdictSurvivesRetries | pkg/mx/handler.go:466-513 | once a pass would reach a verdict, the same verdict is persisted or would be reached again after any run of passes failing in any way, while deleted and other unfinished pods are marked, vanish or change between unfinished phases, late creates show up before initialization, services come and go, or the job is deleted |
| Stability.VerdictIsDelivered | pkg/mx/handler.go:231-246 | after any such run in which the job is not deleted, one pass without errors persists exactly that verdict |
| Outlooks.SuccessReachableIff | pkg/mx/handler.go:574-597 | when unfinished pods may finish or vanish and finished pods stay, some run leads to success iff success is persisted, or the status is unfinished, no more workers than requested have succeeded, and the workers that can still exist less the failed ones suffice |
| Outlooks.FailureIsFinalIff | pkg/mx/handler.go:590-597 | in such runs a failure not yet persisted is final iff too many workers have succeeded or too few still can; it never becomes undecided |
| Outlooks.LatePodVerdict | pkg/mx/handler.go:553-599 | what any pod that appears outside a pass, finished or not, makes of a job without a persisted verdict: success iff it brings the succeeded workers to the requested number, undecided iff not so, nothing has failed and, once initialized, nothing else is missing |
| Outlooks.SuccessIsFinalIff | pkg/mx/handler.go:574-587 | in such runs a success not yet persisted is final iff no worker is unfinished |
| Outlooks.SuccessIsEnoughWorkersIff | pkg/mx/handler.go:556-574 | success is decided whenever at least the requested number of workers succeeded, in every continuation in which finished pods stay and none appears outside a pass, iff the workers that have not failed are no more than requested |
| Outlooks.EnoughWithoutSurplus | pkg/mx/handler.go:556-574 | with no surplus worker the same holds in every continuation without pods that appear outside a pass, even if finished pods vanish or change |
| Outlooks.SurplusStaysOpen | pkg/mx/handler.go:574-597 | with more succeeded workers than replicas, nothing failed and nothing missing, no pass of any run ever persists a verdict until a pod fails or vanishes |
| Witnesses.VerdictCanFlip | pkg/mx/handler.go:231-246 | a concrete run from a new job: a pass announces failure and marks the worker, its update is rejected, the dying worker succeeds, and the next pass persists success |
| Witnesses.SurplusIsNeverJudged | pkg/mx/handler.go:574-574 | a concrete run to a job with two succeeded workers where one was asked for, which then stays without a verdict |
| Witnesses.TimeoutFailsJob | pkg/mx/handler.go:536-546 | a concrete run from a new job: one create times out and leaves no pod, the pass reports success, the pod is never created again, and the next pass persists failure although no pod has failed |
| Histories.SyncHooks | pkg/mx/handler.go:224-239 | the hooks of one pass against the statuses around it: a start hook iff it initialized, a finish hook only with a finished status that is then written or lost |
| Histories.HooksOverRuns | pkg/mx/handler.go:224-246 | in every run: start hooks are one per initialized job plus one per lost pass, finish hooks one per finished job plus one per rejected update, a finish hook never precedes a start hook, and the persisted final status was announced |
| Histories.FinishHooksAgree | pkg/mx/handler.go:232-246 | from a state heading for a verdict, in every run that keeps it, every finish hook issued carries that verdict |
| Hooks.HookSendsOnce | pkg/mx/handler.go:648-690 | after any number of attempts the hook goroutine never blocks, ends, and leaves exactly one result in its channel, read or not |
| Histories.StartBeforeCompletion | pkg/mx/handler.go:562-581 | with a clock that does not run backwards a job never completes before it starts |
| Histories.TimesOverRuns | pkg/mx/handler.go:892-908 | in every step of every run no condition disappears, a transition time changes only with its status, and start and completion time are written once |
| Dates.SyncDates | pkg/mx/handler.go:861-869 | with a clock that does not run backwards, every condition a pass adds or turns over has a transition time read during the pass, and every true condition it sets has such an update time |
| Dates.DatesOverRuns | pkg/mx/handler.go:861-908 | in every such run every persisted condition carries transition and update times read during the run |
| Services.RefManager.CanAdopt | pkg/mx/handler.go:330-349 | the live job is read at most once and adoption is denied iff the read fails, the UID differs or the job is being deleted |
| Services.RefManager.AdoptService | pkg/controller/controller_ref_manager.go:106-117 | a patch is sent iff adoption is allowed; the error and the server's view follow the reply |
| Services.ClaimingOnlyReowns | pkg/controller/controller_ref_manager.go:106-144 | however the patches fare, a service that is not as listed was set free because it is ours and no longer matches, or adopted because it is an orphan that matches and the live job allows it; services of other controllers are still there unchanged |
| Services.ClaimingKeepsServices | pkg/controller/controller_ref_manager.go:67-144 | claiming invents, copies, reorders and edits nothing: apart from controller references what is left is an in-order subsequence of the listing, short of exactly the services a patch found missing |
| Services.RefManager.ClaimServices | pkg/controller/controller_ref_manager.go:67-102 | the loop claims, patches and reports errors service by service, carries on after an error, and reads the live job at most once |
| Services.ClaimedAreOwned | pkg/controller/controller_ref_manager.go:52-66 | the result is an in-order subsequence whose members match selector and filters and are controlled by this job afterwards |
| Services.PatchesAreOurs | pkg/controller/controller_ref_manager.go:84-89 | services of other controllers are never patched, and no adoption is sent unless the live job has this UID and is not being deleted |
| Claims.PatchesExactly | pkg/controller/controller_ref_manager.go:52-66 | the patches sent are, in order, one release for every service of ours that fails the selector or a filter, one adoption for every fitting orphan that is not being deleted if the live job has this UID and is not being deleted, and no other |
| Claims.ReleasedInPlace | pkg/controller/controller_ref_manager.go:119-144 | a service of ours that stopped fitting is set free in its place if the patch goes through, and its claim is an error iff the patch failed for another reason than it being missing or invalid |
| Claims.ErrorsExactly | pkg/controller/controller_ref_manager.go:91-117 | claiming fails iff some release fails, or some adoption is denied or fails otherwise than by the service being missing |
| Services.FailuresAreLocal | pkg/controller/controller_ref_manager.go:91-100 | a service is claimed iff its own claim succeeds, whatever happens to the others |
| Services.ErrorsAreLocal | pkg/controller/controller_ref_manager.go:91-101 | the call returns an error iff some service's own claim failed |
| Services.ReconcileServices | pkg/mx/handler.go:308-352 | listing, claiming and creating on the services of the cluster, proved against the function the run theorems use |
| Services.ServiceCreatedIffMissing | pkg/mx/handler.go:419-463 | a create is issued iff services could be listed, every claim went through, and no usable service is left |
| Services.NoSecondService | pkg/mx/handler.go:196-206 | while a usable service exists no create is issued, and if it is an orphan whose adoption is denied or fails the pass is cut short |
| Services.ServicesBounded | pkg/mx/handler.go:428-457 | reconciling never raises the number of usable services above one |
| Services.NewServiceIsAdopted | pkg/controller/controller_utils.go:76-96 | a service made by one pass is an orphan; the next pass sends exactly one adoption, for that service, if the live job allows it, and is cut short otherwise |
| Services.Rendezvous | pkg/mx/handler.go:931-938 | every replica is given the service's name and a port that reads back as the service's, which is the user's or else 9091; the service selects scheduler pods only and is claimed by the job |
| Claims.ServiceLabels | pkg/mx/handler.go:427-449 | the service's labels and selector are the group, the job's name and the scheduler type, and its name is the job's |
| Claims.JobsApart | pkg/mx/handler.go:981-990 | for jobs with different names neither's selector matches the other's pods or service whatever the templates say, neither's service selects the other's pods, and the services have different names |
| Claims.OthersLeftAlone | pkg/controller/controller_ref_manager.go:67-102 | a service that names another job and is not controlled by this one is neither patched nor claimed and stays as it is |
| Claims.OthersDoNotCount | pkg/mx/handler.go:419-427 | among only such services the job still creates its own |
| Services.EnvironmentDescribesJob | pkg/mx/handler.go:939-962 | role, server and worker counts read back as the job's, and a verbosity entry exists iff one is set |
| Services.FormatIntParses | pkg/mx/handler.go:938-940 | decimal formatting of every integer reads back as that integer |
| Live.JobStatus.DeepCopy | pkg/apis/ava/v1alpha1/zz_generated.deepcopy.go:130-159 | the copy starts out sharing every pointer and the condition array, and ends equal to the status and built of new cells only |
| Live.JobStatus.CopyReplicas | pkg/apis/ava/v1alpha1/zz_generated.deepcopy.go:283-313 | every counter cell still shared with the original is replaced by a new cell with the same value, nil stays nil |
| Live.JobStatus.SetCondition | pkg/mx/handler.go:892-908 | the condition array is replaced by the set list or kept; it is never written in place |
| Live.JobStatus.Retract | pkg/mx/handler.go:606-616 | the same for retracting, which works on a copy of the entry it finds |
| Live.JobStatus.UpdateJobStatus | pkg/mx/handler.go:553-599 | updates the heap status as the value-level function does, writing only conditions and the two times |
| Live.CountPods | pkg/mx/handler.go:356-411 | the counters, the pods created and the error of one type, through the counting loops and the create fan-out |
| Live.CountPhase | pkg/mx/handler.go:993-1008 | the loop counts the succeeded, or the failed, pods |
| Live.FilterActive | pkg/mx/handler.go:364-365 | the loop keeps exactly the pods that are neither Succeeded nor Failed nor being deleted |
| Live.JobStatus.ReconcilePods | pkg/mx/handler.go:356-416 | one reconcilePods call on the heap, writing only this status and a new counter cell for its type |
| Live.JobStatus.RunGoroutines | pkg/mx/handler.go:474-512 | the goroutines load from and store to the counter cells themselves; run in arbitrary order they end with every counter updated exactly once per update, other fields untouched, and an error iff one was sent |
| Live.JobStatus.DeletePods | pkg/mx/handler.go:474-512 | under every interleaving each pod moves from its type's active to its gone counter in the cells, and an error is returned iff some delete failed |
| Live.JobStatus.Terminate | pkg/mx/handler.go:466-513 | every active listed pod moves from its type's active to its gone counter in the cells, changing nothing else, and the call fails iff a delete failed |
| Handler.Conclude | pkg/mx/handler.go:223-252 | initialize, terminate, compare, write; the snapshot is unchanged although counters were changed in place |
| Handler.Reconcile | pkg/mx/handler.go:177-252 | reconcileMXJobs on the heap is the value-level pass |
| Handler.Sync | pkg/mx/handler.go:136-175 | running Sync on the cluster is one step of a run |

## Left out

- Finalizers: `handleMXJobFinalizers` runs in a goroutine on a copy of the job; here a pass over a job pending deletion leaves status and pods alone.
- Webhook delivery: `callHook`, retries, REST clients and the client cache; only that a hook was issued, and the status it carried, is recorded. A hook is recorded whether or not a webhook is configured.
- Claiming pods: adoption and release of pods happen in Kubernetes code; a listing error, a foreign pod or a vanished pod stands for their effects.
- Pods created by the pass that finishes the job are not terminated by it, as in the code.
- Scale-down of surplus pods and deletion of surplus services, which the code does not implement.
- Condition messages, log lines, events and expectations.
- Container environment lists: only the generated variables are modelled, not their place after the user's own.
- The 32-bit counters are integers; Counters.PassConserves bounds them for clusters of at most 2^31 - 1 pods.
- Wiring: `NewHandler`, the command, the stub handler and generated schema code.
