# A verified model of the cloudscale load balancer controller

The controller keeps `LoadBalancer` objects of a Kubernetes cluster and load balancers of the cloudscale cloud
in step. It works on two stores at once: the object store, in which users, the controller and an admission
webhook meet, and the cloud, whose calls may fail, or take effect while their answer is lost. This project
models the reconciler, the webhook, the node-event filter and the defaulting getters in Dafny, and proves what
they keep over whole runs.

`dafny verify dfyconfig.toml` checks everything.

## How it is organised

| files | what they hold |
|---|---|
| `Api`, `Orders`, `Tables` | the custom resource and its getters; comparators and sorting; a table of cloud resources with calls that may fail or take effect unanswered |
| `Lifecycle`, `LifecycleProof`, `LifecycleTheorems`, `LifecycleOnce` | finalizer, creation, adoption, recording and cleanup as a state machine over single API calls, with stale reads, lost answers, crashes, users and cloud drift between any two calls |
| `Webhook`, `Admission` | the validation, and what it keeps over any history of admitted writes |
| `FloatingIps`, `FloatingIpRuns` | the attach loop, and any interleaving of the loops of several objects |
| `Members`, `Pools` | the diff-and-apply loops |
| `Patching`, `Listeners`, `Monitors` | one child per pool, recreated or patched one field at a time |
| `Nodes`, `Zones`, `NodeEvents` | from nodes to wanted members and to the guessed zone, and which node events may be skipped |
| `Statuses`, `Frames`, `Phases`, `Children`, `Convergence` | the status, and the child phase of one load balancer put together |
| `Simulation`, `LoadBalancers`, `Reconcile`, `Fixpoint`, `Isolation` | how methods follow the state machine; `ensureLoadBalancer`, `cleanupLoadBalancer` and `Reconcile` as methods; sequences of runs; runs for different load balancers |

Two views of `Reconcile` stand side by side. The state machine of `Lifecycle` interleaves single calls of all
workers with everybody else, and carries the safety results. The methods of `LoadBalancers`, `Convergence` and
`Reconcile` follow the code statement by statement for one worker, and carry convergence. Each of their calls to the
object store and to the load balancers is a step of the machine (`Simulation`), so its safety results hold of them too.

A method that calls the cloud records in the ghost field `log` (or returns as `steps`) the state after every
changing call, answered or not. A statement about all of them is a statement about stopping after any call. The ghost
field `failures` counts the calls that failed; every method says that it fails only if this count grew or for an error
that the source itself raises.

## Assumptions

- Each object has one worker at a time, and the worker's cache may lag but never goes backwards.
- A list call sees every create that took effect before it; a call does not take effect after it has returned.
- Identifiers are never handed out twice; created resources echo the request; zone slugs are not empty.
- A patch changes the field sent, and leaves it alone if the value sent is zero, empty or absent.
- Nobody but the controller takes its finalizer off; the cloud does not change names and creation tags.
- A call that is refused, such as an update the webhook rejects, counts as a failed call.
- An update of the floating IP with a given trimmed address applies to a network with that trimmed address.
- The webhook validates a write against the store the write is applied to. `StaleListBreaks` shows that this is needed, `StaleListExactly` how far.

## Where the code and its intent part

- The cleanup filters on the managed tag with the UID as its value (controllers/loadbalancer_controller.go:926), but
  creation writes `"true"` there and the UID under another tag (786, 1004); and it returns early if the recorded load
  balancer is missing (916-918). `FilterOnCreated`, `CleanupComplete` and `OrphanReachable` give the exact extent, and
  `NoOrphan` the safety of the intended cleanup.
- The monitor request uses the raw status codes (404) although a defaulting getter exists; `UnsetCodesNeverSettle`.
- Pool names are assumed to be unique by the mapping, and nobody checks it; `SharedExactly` says when two pools of a
  specification end up on one cloud pool.
- A delay or timeout below a second is sent as zero and then never patched; `ZeroOnTheWire`, `MergeSettles`.
- Trimming `/32` and `/128` identifies an IPv6 `/32` with a `/128` of the same address; `TrimCollides`.
- A CIDR listed twice in one object makes a call without progress; `ProgressExactly`.
- A range of status codes may run downwards (`599-100`); the documentation speaks of a range.
- A found load balancer in another zone than the one set in the object makes the recording update inadmissible;
  `RecordAdmitted`.

## Model

| member | source | states |
|---|---|---|
| `LifecycleProof.NextOk` | controllers/loadbalancer_controller.go:89-141 | every call of every worker, every crash, every user and cloud step keeps the lifecycle invariant: one tagged load balancer per UID, named after its object, workers positioned on justified knowledge |
| `LifecycleProof.RunOk` | controllers/loadbalancer_controller.go:70-141 | the invariant holds in every state of every run |
| `LifecycleTheorems.AtMostOneLoadBalancer` | controllers/loadbalancer_controller.go:745-808 | in every state of every run, load balancers with the same creation tag are one and the same, named after the owner |
| `LifecycleTheorems.RecordedIsOwn` | controllers/loadbalancer_controller.go:110-121 | every UUID the controller ever recorded is that of a load balancer created for that object |
| `LifecycleTheorems.ChildrenHaveUuid` | controllers/loadbalancer_controller.go:114-141 | the child phase is never reached with an empty UUID or without the finalizer |
| `LifecycleTheorems.NoOrphan` | controllers/loadbalancer_controller.go:89-108 | with the intended cleanup a tagged load balancer exists only while its object is stored with the finalizer on |
| `LifecycleTheorems.FilterOnCreated` | controllers/loadbalancer_controller.go:926 | the filter as written selects a created load balancer exactly for the UID "true", the intended one exactly for its own UID |
| `LifecycleTheorems.CleanupComplete` | controllers/loadbalancer_controller.go:911-944 | the cleanup as written leaves nothing behind if and only if every load balancer of the object is the recorded one; the intended one never does |
| `LifecycleTheorems.CleanupProgress` | controllers/loadbalancer_controller.go:924-941 | each answered cleanup call leaves the same load balancers to remain at the end |
| `LifecycleTheorems.CleanupEffect` | controllers/loadbalancer_controller.go:911-944 | the calls of an undisturbed cleanup add up to the stated effect |
| `LifecycleTheorems.OrphanReachable` | controllers/loadbalancer_controller.go:785-944 | a run of the code as written ends with the object gone and its load balancer alive |
| `LifecycleOnce.OnceKept` | controllers/loadbalancer_controller.go:749-808 | every step keeps: one creation per UID ever, and a UID whose load balancer is gone is retired |
| `LifecycleOnce.CreatedOnce` | controllers/loadbalancer_controller.go:104-121 | unless others delete load balancers, at most one is ever created per object, over the whole run |
| `Api.Quotient` | controllers/loadbalancer_controller.go:395-396 | conversion of durations truncates toward zero |
| `Api.SubSecondIsZero` | api/v1beta1/loadbalancer_types.go:294-306 | exactly the durations below a second either way reach the wire as zero |
| `Api.DecimalNumber` | controllers/loadbalancer_controller.go:575 | decimal notation in derived names names the number |
| `Orders.PairOrdering` | webhook/v1beta1/loadbalancer_webhook.go:145-147 | the weighted sum of two comparisons is the lexicographic total order, zero only on equal pairs |
| `Orders.SortedUnique` | controllers/loadbalancer_controller.go:1024-1027 | elements the comparator tells apart have one sorted permutation |
| `Orders.CanonicalExactly` | controllers/loadbalancer_controller.go:187-189 | an unstable sort has one possible result if and only if the comparator tells the elements apart |
| `Orders.SortedEqual` | webhook/v1beta1/loadbalancer_webhook.go:148-153 | sorting clones and comparing decides multiset equality |
| `Orders.SlicesMatch` | controllers/loadbalancer_controller.go:1018-1028 | true if and only if the lists are permutations of each other, early length test included |
| `Orders.ListSet` | controllers/loadbalancer_controller.go:287 | the elements of a set, each once, in ascending order |
| `Webhook.StatusCodeExactly` | webhook/v1beta1/loadbalancer_webhook.go:160-169 | valid exactly for the decimal notation of 100 to 599 (section 15 of RFC 9110) or two joined by a dash, and a range exactly in the second case |
| `Webhook.VerifyCodes` | webhook/v1beta1/loadbalancer_webhook.go:110-119 | the loop with early break accepts exactly the documented lists, and reports exactly the errors before the break |
| `Webhook.UsedFloatingIPs` | webhook/v1beta1/loadbalancer_webhook.go:171-191 | each non-empty CIDR is attributed to the last listed object that claims it, and nothing else is |
| `Webhook.VipOrdering` | webhook/v1beta1/loadbalancer_webhook.go:145-151 | the comparator of virtual IPs is a total order that tells all of them apart |
| `Webhook.VerifyChanges` | webhook/v1beta1/loadbalancer_webhook.go:135-158 | accepted exactly if a set UUID and zone are kept and the virtual IPs are the same multiset, each violation reported exactly |
| `Webhook.VerifyVips` | webhook/v1beta1/loadbalancer_webhook.go:84-91 | exactly the non-empty addresses that do not parse are reported |
| `Webhook.VerifyFips` | webhook/v1beta1/loadbalancer_webhook.go:93-107 | exactly the unparsable CIDRs and those held by another object are reported |
| `Webhook.VerifyPools` | webhook/v1beta1/loadbalancer_webhook.go:109-126 | accepted exactly if every pool's codes and networks are |
| `Webhook.Verify` | webhook/v1beta1/loadbalancer_webhook.go:81-133 | no error if and only if the write is admissible, failed list call included |
| `Admission.OwnerInStore` | webhook/v1beta1/loadbalancer_webhook.go:179-188 | in a sound store the owner map names exactly the claimant of a non-empty CIDR |
| `Admission.FipsFreeExactly` | webhook/v1beta1/loadbalancer_webhook.go:97-106 | the floating IP check passes exactly if all CIDRs parse and nobody else claims one; skipping empty strings leaves no gap |
| `Admission.AppliedOk` | webhook/v1beta1/loadbalancer_webhook.go:81-133 | every admitted write keeps the store sound and ownership exclusive |
| `Admission.HistoryOk` | webhook/v1beta1/loadbalancer_webhook.go:81-133 | so does every history from the empty store |
| `Admission.ExclusiveFloatingIPs` | webhook/v1beta1/loadbalancer_webhook.go:93-107 | no CIDR is ever claimed by two objects |
| `Admission.KeptByWrite` | webhook/v1beta1/loadbalancer_webhook.go:135-158 | one write keeps what is write-once for every surviving object |
| `Admission.WriteOnce` | webhook/v1beta1/loadbalancer_webhook.go:135-158 | between any two moments of a history a set UUID or zone and the multiset of virtual IPs of an object are unchanged |
| `Admission.RewriteAdmitted` | webhook/v1beta1/loadbalancer_webhook.go:81-133 | an update of UUID and zone only is admitted exactly if it keeps what is set |
| `Admission.ControllerUpdatesAdmitted` | controllers/loadbalancer_controller.go:94-127 | finalizer updates and filling in an empty zone are always admitted |
| `Admission.RecordAdmitted` | controllers/loadbalancer_controller.go:114-121 | recording UUID and zone is admitted exactly if the zone was empty or agrees |
| `Admission.StaleListBreaks` | webhook/v1beta1/loadbalancer_webhook.go:171-177 | validated against an outdated list, two objects can claim one CIDR |
| `Admission.StaleListExactly` | webhook/v1beta1/loadbalancer_webhook.go:171-177 | a write validated against the list of an earlier store keeps exclusivity if and only if no other object has claimed one of its CIDRs since |
| `FloatingIps.TrimCidr` | controllers/loadbalancer_controller.go:277 | what trimming makes of an address with a prefix length |
| `FloatingIps.TrimCollides` | controllers/loadbalancer_controller.go:277 | exactly when two CIDRs are trimmed to the same string |
| `FloatingIps.TrimInjective` | controllers/loadbalancer_controller.go:277 | trimming is injective on host prefixes |
| `FloatingIps.AttachFloatingIPs` | controllers/loadbalancer_controller.go:256-288 | after every call only wanted addresses differ, and only toward this load balancer; on success each wanted CIDR has a network of its trimmed address attached, itself where no two networks share one; the report is in order; with all attached no call is made; it fails only if a call failed or no network has a wanted trimmed address |
| `FloatingIps.ServedByItself` | controllers/loadbalancer_controller.go:268-277 | a CIDR is served under its own spelling unless a network of another spelling with its trimmed address was attached instead |
| `FloatingIpRuns.NextOk` | controllers/loadbalancer_controller.go:261-285 | every call of any loop keeps the invariant of all loops |
| `FloatingIpRuns.StepEffect` | controllers/loadbalancer_controller.go:276-282 | an address changes only by a call of its own claimant, toward that claimant |
| `FloatingIpRuns.NoFights` | controllers/loadbalancer_controller.go:256-288 | over any interleaving no address is moved off its claimant and no unclaimed address is touched |
| `FloatingIpRuns.Progress` | controllers/loadbalancer_controller.go:266-285 | the unattached claimed set never grows; a call removes exactly its network from it, and makes it strictly smaller if and only if that network was not attached to the caller yet; always if the specification lists no CIDR twice |
| `FloatingIpRuns.ProgressExactly` | controllers/loadbalancer_controller.go:266-285 | a specification can make a call without progress in some run if and only if it lists a CIDR twice |
| `FloatingIpRuns.AdmittedObjectsDoNotFight` | controllers/loadbalancer_controller.go:256-288 | objects admitted by the webhook never take addresses from each other |
| `Members.EchoMatches` | controllers/loadbalancer_controller.go:1082-1102 | the member created for a request is matched with it by later runs exactly if the request says whether it is enabled |
| `Members.BetweenBounds` | controllers/loadbalancer_controller.go:349-364 | an intermediate state has at least the common and at most the joint identities |
| `Members.DistanceZero` | controllers/loadbalancer_controller.go:332-347 | the measure is zero exactly if the identities are the wanted ones |
| `Members.DeleteCloser` | controllers/loadbalancer_controller.go:349-354 | deleting a stale member lowers the measure by one |
| `Members.CreateCloser` | controllers/loadbalancer_controller.go:355-364 | creating a wanted member lowers the measure by one exactly if its identity was missing |
| `Members.ProgressExactly` | controllers/loadbalancer_controller.go:355-364 | every answered create makes progress if and only if no request is repeated |
| `Members.ToDelete` | controllers/loadbalancer_controller.go:332-339 | selects exactly the listed members that match no request, each once and in order |
| `Members.ToCreate` | controllers/loadbalancer_controller.go:340-347 | selects exactly the requests that no listed member matches, as often and in the order they occur |
| `Members.DeleteAll` | controllers/loadbalancer_controller.go:349-354 | the delete loop stays between start and goal and approaches the goal with each answered call |
| `Members.CreateAll` | controllers/loadbalancer_controller.go:355-364 | so does the create loop; finished, the missing identities are there |
| `Members.EnsurePoolMembers` | controllers/loadbalancer_controller.go:327-371 | on success the identities are exactly the wanted ones; each answered call is strict progress; a matching pool is left alone; it fails exactly if a call failed |
| `Members.CrashSafe` | controllers/loadbalancer_controller.go:327-371 | after any call the identities lie between the common and the joint ones, and wanted members are the same rows |
| `Pools.NamesSeparate` | controllers/loadbalancer_controller.go:679-690 | distinct pool names give distinct wanted pools |
| `Pools.WantedPoolExactly` | controllers/loadbalancer_controller.go:680-689 | the wanted pool is the one with the load balancer's UUID, the derived name, and the wire names of algorithm and protocol, defaults spelled out |
| `Pools.DeleteStale` | controllers/loadbalancer_controller.go:694-710 | deletes exactly the unwanted pools of this load balancer, whatever happens only those |
| `Pools.MapPools` | controllers/loadbalancer_controller.go:712-740 | every wanted pool is mapped to the first listed match or to a new pool |
| `Pools.SharedExactly` | controllers/loadbalancer_controller.go:712-740 | two positions share a cloud pool exactly if their wanted pools are equal and one existed |
| `Pools.EnsurePools` | controllers/loadbalancer_controller.go:668-743 | on success the mapping is the specification position by position onto living pools whose fields are as specified, and every pool of the load balancer is so specified; equal pools never appear; a converged cloud is left alone; it fails only if a call failed |
| `Pools.MappingInjective` | controllers/loadbalancer_controller.go:985-990 | with distinct names the mapping is injective |
| `Patching.PatchFields` | controllers/loadbalancer_controller.go:616-658 | one call per differing field; every intermediate row is a stage of the patching |
| `Patching.OneGoal` | controllers/loadbalancer_controller.go:596-614 | a pool with at most one child has exactly one goal |
| `Patching.EnsureOne` | controllers/loadbalancer_controller.go:596-614 | after every call at most one child and the same goal on resumption, also between delete and recreate and after an unanswered create; several children are an error without a call, and the only error besides failed calls |
| `Listeners.MergeSettles` | controllers/loadbalancer_controller.go:616-658 | once patched the listener agrees with the request, rerunning changes nothing, and makes no call exactly if no zero-wanted field differs |
| `Listeners.StageIs` | controllers/loadbalancer_controller.go:616-658 | each stage of field-at-a-time patching is the record with a prefix of its fields replaced |
| `Listeners.PartlyResumes` | controllers/loadbalancer_controller.go:616-658 | resumed from any stage the patching leads to the same record |
| `Listeners.WholeReplacement` | controllers/loadbalancer_controller.go:616-658 | field-at-a-time patching equals whole-record replacement, with one call per difference |
| `Listeners.ListenerPlanSound` | controllers/loadbalancer_controller.go:553-658 | the listener request meets all that `EnsureOne` relies on |
| `Listeners.WantedSorted` | controllers/loadbalancer_controller.go:565-569 | the requested networks are the specified ones, sorted |
| `Listeners.WantedOnTheWire` | controllers/loadbalancer_controller.go:565-583 | the request carries pool, derived name, wire protocol, specified port, networks and timeouts in whole milliseconds with the documented defaults, and exactly which reach the wire as zero |
| `Listeners.EnsureListener` | controllers/loadbalancer_controller.go:553-660 | every state leads to the goal; finished, the one listener is the goal and agrees with the request; one call per differing field; it fails only if a call failed or the pool has several listeners |
| `Monitors.MergeSettles` | controllers/loadbalancer_controller.go:442-550 | as for listeners, HTTP section included |
| `Monitors.StageIs` | controllers/loadbalancer_controller.go:442-548 | each stage replaces a prefix of the fields; the HTTP section appears with its first patch |
| `Monitors.PartlyResumes` | controllers/loadbalancer_controller.go:442-548 | resumed from any stage the patching leads to the same monitor |
| `Monitors.WholeReplacement` | controllers/loadbalancer_controller.go:442-548 | field-at-a-time patching equals whole-record replacement |
| `Monitors.MonitorPlanSound` | controllers/loadbalancer_controller.go:390-440 | the monitor request meets all that `EnsureOne` relies on |
| `Monitors.UnsetCodesNeverSettle` | controllers/loadbalancer_controller.go:404 | without specified codes, a monitor that reports some is patched in vain in every run |
| `Monitors.WantedMonitorExactly` | controllers/loadbalancer_controller.go:386-410 | the request in every field: type, times, thresholds, and exactly for HTTP types a section with method, path, version, host and the codes as specified |
| `Monitors.ZeroOnTheWire` | controllers/loadbalancer_controller.go:386-410 | delay, timeout and thresholds in whole seconds with the documented defaults, and exactly which specified values reach the wire as zero or empty |
| `Monitors.EnsureMonitor` | controllers/loadbalancer_controller.go:374-551 | every state leads to the goal; finished, the one monitor is the goal and agrees with the request; one call per differing field; it fails only if a call failed or the pool has several monitors |
| `Nodes.LabelsExactly` | controllers/node_update_handler.go:36 | all selectors agree on two label sets if and only if the sets are equal |
| `Nodes.MeetsExactly` | controllers/loadbalancer_controller.go:853-860 | what each operator of a selector asks of a label; the negative ones are the opposites of the positive ones |
| `Nodes.MatchingNodes` | controllers/loadbalancer_controller.go:852-870 | succeeds exactly if the selector converts and the nodes can be listed, with the matched nodes, each once, by name |
| `Nodes.SelectedUnique` | controllers/loadbalancer_controller.go:865-867 | there is only one such answer |
| `Nodes.ServerIDExactly` | controllers/loadbalancer_controller.go:881-889 | the server asked for is what follows `cloudscale://`, and none is asked for without it |
| `Nodes.ServersForNodes` | controllers/loadbalancer_controller.go:877-909 | fails exactly if a lookup fails other than by a missing server; every node yields a server or a warning |
| `Nodes.BackedContents` | controllers/loadbalancer_controller.go:880-907 | the servers found are exactly those of the nodes that have one |
| `Nodes.WantedMembers` | controllers/loadbalancer_controller.go:293-325 | the three nested loops yield one such request for each such address of each server, each once and in order |
| `Nodes.WantedExactly` | controllers/loadbalancer_controller.go:293-325 | a request is among the wanted ones if and only if some server has on a non-public interface an address in a subnet that the pool allows, and the request has its address and subnet, is enabled, has the pool's two ports, and names node, server and pool |
| `Zones.GuessZone` | controllers/loadbalancer_controller.go:946-976 | the guess is z if and only if everything can be read and the set of non-empty zones of all servers of all pools is {z}, whatever the order of pools and nodes |
| `NodeEvents.QueueAll` | controllers/node_update_handler.go:51-66 | every listed object is queued; nothing if the list call fails |
| `NodeEvents.Create` | controllers/node_update_handler.go:23-30 | requeues all exactly for nodes outside the initial list |
| `NodeEvents.Update` | controllers/node_update_handler.go:33-41 | requeues all exactly if provider ID or labels differ |
| `NodeEvents.Delete` | controllers/node_update_handler.go:43-45 | requeues all |
| `NodeEvents.QuietCourse` | controllers/node_update_handler.go:33-41 | any course of skipped updates leaves the nodes as the controller sees them |
| `NodeEvents.AlikeAnswers` | controllers/loadbalancer_controller.go:290-325 | the same visible nodes give the same matched nodes, servers, wanted members and zones |
| `NodeEvents.SkippingIsSound` | controllers/node_update_handler.go:33-41 | after any course of skipped updates every input of every reconciliation is what it was |
| `NodeEvents.LabelChangesMatter` | controllers/node_update_handler.go:36-38 | an update with the same provider ID is passed on if and only if some selector tells old and new apart |
| `Statuses.BackendOrdering` | controllers/loadbalancer_controller.go:187-189 | the comparator of backends is an order whose ties are equal node name and address |
| `Statuses.StatusBackends` | controllers/loadbalancer_controller.go:178-189 | the backends of the listed members, sorted: one for each, showing its node, server, address and monitor status |
| `Statuses.ShownExactly` | controllers/loadbalancer_controller.go:179-186 | a backend is reported if and only if it shows some listed member in all four fields |
| `Statuses.StatusCanonical` | controllers/loadbalancer_controller.go:178-189 | the computed status is canonical if and only if node name and address tell the members apart |
| `Statuses.ReportedUnique` | controllers/loadbalancer_controller.go:178-193 | then it does not depend on the order of list answers |
| `Phases.ListenerPhase` | controllers/loadbalancer_controller.go:150-153 | only this pool's listener changes, one per pool throughout; whatever the outcome it stays as effective as it was; on success settled exactly if no zero-wanted field differed; settled, no call; it fails only if a call failed or the pool has several listeners |
| `Phases.ListenerEffectiveExactly` | controllers/loadbalancer_controller.go:616-658 | whether a pool's listener differs from a zero wanted value is decided by what it is to become, so every interrupted state agrees |
| `Phases.MonitorPhase` | controllers/loadbalancer_controller.go:155-158 | the same for the health monitor likewise |
| `Phases.MonitorEffectiveExactly` | controllers/loadbalancer_controller.go:442-548 | the same for the health monitor |
| `Phases.MemberPhase` | controllers/loadbalancer_controller.go:160-189 | only this pool's members change; on success they are the wanted ones and the backends report them; settled, no call; it fails only if a call failed or nodes or servers cannot be read |
| `Children.PoolKept` | controllers/loadbalancer_controller.go:149-194 | work on other pools keeps what is done for a pool, in both directions |
| `Children.EnsurePool` | controllers/loadbalancer_controller.go:150-193 | the work on one pool stays within it, agrees with the specification when finished, is settled exactly if it was effective, and keeps that whatever the outcome; it fails only if a call failed or for one of those errors |
| `Children.EnsureEachPool` | controllers/loadbalancer_controller.go:148-194 | so does the loop over all mapped pools; it fails only if a call failed or for an error of a mapped pool |
| `Convergence.SettledExactly` | controllers/loadbalancer_controller.go:143-194 | after a successful child phase everything is as specified, and settled if and only if no child differed from a zero wanted value |
| `Convergence.AfterChildren` | controllers/loadbalancer_controller.go:143-194 | interrupted anywhere, the conditions for coming to rest still hold |
| `Convergence.StatusUnique` | controllers/loadbalancer_controller.go:196-203 | recomputing the status of all pools on the same cloud gives the same status |
| `Convergence.EnsureChildren` | controllers/loadbalancer_controller.go:143-194 | the child phase touches only its own pools and their children, keeps one listener and monitor per pool after every call, keeps the conditions for coming to rest whatever its outcome, converges, and does nothing once settled; it fails only if a call failed or for an error of a wanted pool |
| `LoadBalancers.FindMine` | controllers/loadbalancer_controller.go:750-761 | finds a load balancer with creation tag and name, or none exists; a step of the lifecycle machine; it fails exactly if the call failed |
| `LoadBalancers.CreateMine` | controllers/loadbalancer_controller.go:763-807 | at most one load balancer is created, tagged, named, with the requested addresses, in the specified zone or else in the one zone of all servers of all pools; without such a zone no call is made; a step of the lifecycle machine whatever the outcome |
| `LoadBalancers.AssignAddresses` | controllers/loadbalancer_controller.go:772-783 | one address per requested virtual IP, the requested one where there is one; the cloud's choice if none is requested |
| `LoadBalancers.FetchOrAdopt` | controllers/loadbalancer_controller.go:810-849 | a managed load balancer is left alone; with all calls answered it succeeds exactly if the load balancer is there and managed or adoptable, and is refused without a change otherwise; steps of the lifecycle machine |
| `LoadBalancers.AdoptableExactly` | controllers/loadbalancer_controller.go:824-832 | adoption is open exactly with no virtual IPs specified, flavor lb-standard and an empty or equal zone |
| `LoadBalancers.EnsureLoadBalancer` | controllers/loadbalancer_controller.go:745-849 | at most one changing call, which creates only if none exists for the object, or adopts the recorded one; its calls are a path of the lifecycle machine; it fails only if a call failed, or there is neither a load balancer nor a zone, or the recorded one is missing or not to be adopted, and then no call changes anything |
| `LoadBalancers.Sweep` | controllers/loadbalancer_controller.go:926-941 | nothing but what the filter and the name select is deleted, and on success all of it; a path of the lifecycle machine; it fails exactly if a call failed |
| `LoadBalancers.Purge` | controllers/loadbalancer_controller.go:936-941 | the delete loop, call by call a path of the lifecycle machine |
| `LoadBalancers.Cleanup` | controllers/loadbalancer_controller.go:911-944 | nothing but the recorded and the selected load balancers is deleted; on success the recorded one is gone, and the rest is swept unless it was missing; a path of the lifecycle machine; it fails exactly if a call failed |
| `Reconcile.Controller.WriteStatus` | controllers/loadbalancer_controller.go:196-239 | the status is written if and only if it differs |
| `Reconcile.Controller.ConvergeCloud` | controllers/loadbalancer_controller.go:143-222 | children and floating IPs: within bounds, the conditions for coming to rest kept whatever the outcome, at rest on success if they held, nothing to do at rest; it fails only if a call failed or for an error of a wanted pool or floating IP |
| `Reconcile.Controller.Converge` | controllers/loadbalancer_controller.go:143-239 | the same with the status, which is current afterwards |
| `Reconcile.Controller.Finalize` | controllers/loadbalancer_controller.go:89-102 | the object changes only after the recorded load balancer is gone; a path of the lifecycle machine; it aborts only if a call failed |
| `Reconcile.Controller.Acquire` | controllers/loadbalancer_controller.go:104-113 | a load balancer appears only with the finalizer stored; a path of the lifecycle machine; it fails only if a call failed or the load balancer cannot be ensured |
| `Reconcile.Controller.Register` | controllers/loadbalancer_controller.go:114-141 | UUID and zone are only filled in, from the ensured load balancer; the raw status is written if and only if it differs; a path of the lifecycle machine; it aborts exactly if the write failed |
| `Reconcile.Controller.Prepare` | controllers/loadbalancer_controller.go:104-141 | the child phase is entered only with UUID and zone recorded and with a load balancer that is not changing; a path of the lifecycle machine |
| `Reconcile.Controller.Advance` | controllers/loadbalancer_controller.go:104-242 | the run for an object that is not being deleted, whatever its outcome: all that is stated for `Reconcile` |
| `Reconcile.Controller.Reconcile` | controllers/loadbalancer_controller.go:70-242 | every run is bounded (only own children after every call, only the own load balancer created or adopted, finalizer before create, cleanup before removal), leaves what its outcome says, keeps the conditions for coming to rest even if it fails, is quiet at rest, and is a path of the lifecycle machine; and it aborts only if a call failed or for one of the errors of the source |
| `Simulation.PathChain` | controllers/loadbalancer_controller.go:70-141 | paths of the machine for consecutive calls join to one |
| `Simulation.StaysReachable` | controllers/loadbalancer_controller.go:70-141 | what a method that follows the machine leaves in the stores is mirrored by a reachable state of the machine |
| `Simulation.OnePerObject` | controllers/loadbalancer_controller.go:745-808 | so it never leaves two load balancers created for one object |
| `Fixpoint.AuspiciousStays` | controllers/loadbalancer_controller.go:104-239 | the conditions for coming to rest survive every run, failed ones included |
| `Fixpoint.CleanRun` | controllers/loadbalancer_controller.go:114-128 | an error-free run finishes at rest, or has filled in UUID and zone; it finishes if both were there |
| `Fixpoint.AuspiciousThroughout` | controllers/loadbalancer_controller.go:104-239 | they hold throughout any course of runs that fail at will |
| `Fixpoint.RestLasts` | controllers/loadbalancer_controller.go:143-239 | at rest any further run, whatever its outcome, changes nothing in the cloud |
| `Fixpoint.TwoRunsRest` | controllers/loadbalancer_controller.go:110-242 | of any two error-free runs of a course, with any failed ones before and between, the second finishes, at rest and with a current status |
| `Fixpoint.FixpointReached` | controllers/loadbalancer_controller.go:110-242 | after any two error-free runs of a course no further run, failed or not, makes a changing cloud call as long as nodes and servers are the same; if members are told apart by node and address, none writes the object or its status |
| `Fixpoint.AnsweredRun` | controllers/loadbalancer_controller.go:104-241 | a run without failed calls and without the errors of the source ends, exactly: asking to be run again if UUID or zone was missing, waiting if the load balancer is changing, finished otherwise |
| `Fixpoint.StaysUnobstructed` | controllers/loadbalancer_controller.go:104-239 | such a run leaves nothing that would obstruct the next one |
| `Fixpoint.AnsweredRunsRest` | controllers/loadbalancer_controller.go:110-242 | two runs without failed calls reach the fixpoint, with no assumption on their outcomes |
| `Fixpoint.RestIsMatching` | controllers/loadbalancer_controller.go:143-233 | at rest the children are those of the specification and the floating IPs attached |
| `Fixpoint.OnePerPoolThroughout` | controllers/loadbalancer_controller.go:422-440 | at most one listener and one monitor per pool after every call of every run of any course of events |
| `Fixpoint.MirroredThroughout` | controllers/loadbalancer_controller.go:70-242 | every state of every course of runs is mirrored by a reachable state of the lifecycle machine |
| `Fixpoint.OneLoadBalancerThroughout` | controllers/loadbalancer_controller.go:745-808 | so no course of runs ever leaves two load balancers created for one object |
| `Fixpoint.RunAndRest` | controllers/loadbalancer_controller.go:110-242 | running the controller itself, retrying failed runs: after two error-free ones any number of further runs change nothing |
| `Isolation.OpsCommute` | controllers/loadbalancer_controller.go:668-678 | inserting, removing and changing rows of different load balancers commute, and each remains a call of its owner |
| `Isolation.RunsCommute` | controllers/loadbalancer_controller.go:143-194 | so do all calls of two runs |
| `Isolation.LogIsOps` | controllers/loadbalancer_controller.go:143-194 | the logged calls of work confined to one load balancer's rows are calls on those rows and add up to its effect |
| `Isolation.RunsAreOps` | controllers/loadbalancer_controller.go:143-222 | every run is such a sequence of calls on pools, listeners, monitors and members |
| `Isolation.AnswersFromPart` | controllers/loadbalancer_controller.go:553-563 | list answers, filtered, depend only on the caller's own rows |
| `Isolation.Alone` | controllers/loadbalancer_controller.go:374-384 | in any interleaving each call starts from the rows the caller's previous call left |
| `Isolation.OrderDoesNotMatter` | controllers/loadbalancer_controller.go:143-194 | interleavings in which everybody sees the same end in the same state |
| `Isolation.RunsAreCalls` | controllers/loadbalancer_controller.go:143-222 | a run consists of such calls on every table |
| `Isolation.OthersUntouched` | controllers/loadbalancer_controller.go:114-222 | a run changes no pool, listener, monitor or member of another load balancer |

## Left out

- Entry point, flags, TLS, leader election and manager wiring: input and output plumbing.
- HTTP, JSON and authentication of the cloud client: calls are methods with any outcome.
- The status collector and metrics: straight emission of numbers.
- Events, logging and the texts of errors and warnings: they affect no state; a warning is modelled by the node name alone.
- The subnets of requested virtual IPs: the model keeps the addresses of a load balancer only.
- Resource tags of pools, listeners and monitors: written once and never compared.
- The internals of IP and CIDR parsing and the syntax of label keys and values: parameters of the model, except that a CIDR needs a slash.
- Floating-point rounding in the conversion of durations to seconds: the model truncates the exact quotient.
- Cascading deletes of children when their pool or load balancer is deleted: the cloud's own rule, not shown in the repository.
- Handing an address from one object to another while attach loops run: the wanted addresses are fixed during an interleaving.
- Requeue intervals and timing: a run says that it wants to be repeated, not when.
- The `Generic` node handler: it requeues everything, like `Delete`.
- Patching.PatchFields: the source has the comparisons written out field by field; the model has them as a list of fields in the same order, worked off by a loop.
- Reconcile.Controller.Reconcile: follows one worker with nobody else writing to its object during the run; interference between its calls is covered by the state machine of `Lifecycle`, of which its calls are steps.
- FloatingIpRuns.Progress: strict only for calls on networks not attached to the caller yet; `ProgressExactly` says which specifications can make others.
- Members.EnsurePoolMembers: strict progress only if no request is repeated; `Members.ProgressExactly` shows that this is the exact condition.
