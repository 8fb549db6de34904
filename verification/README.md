# Verification of the node agent

A Dafny 4.11 model of the part of the GreenCompute node agent that decides who
gets which GPU, and of the launch of inference replicas that span several nodes.
`dafny verify dfyconfig.toml` checks everything.

What is modelled:

* **The reconcile state machine.** Each deployment's record moves through
  accepted, starting, ready, failed, suspended and terminated. Four things have
  to agree all the time: the persisted records, the allocator, the containers on
  the host, and what was reported to the control plane. `NodeModel` says on
  values what every handler, one reconcile pass, one recovery, a termination and
  a restart compute; `NodeAgentService` is the class that does it step by step,
  each method proved to compute that function. Leases, workload and deployment
  lookups, the busy-GPU probe and every backend result are inputs that may be
  anything.
* **Whole runs** of it (`Runs`): any sequence of passes, recoveries, requested
  terminations, heartbeats, restarts, and crashes after any number of writes of
  the state file that leave arbitrary containers behind. `Exclusivity`,
  `Containers`, `ContainerIds`, `LiveContainers`, `Names`, `Lifecycle`, `Reports`,
  `FaithfulReports`, `Orphans`, `Suspension`, `Stabilisation`, `Healing`,
  `FrozenOverlap`, `LostRetries`, `Capacity` and `HostMemory` prove what holds.
* **Each operation spelled out**, without the functions that compute it: which leases
  a pass acts on and in which order, and what a crash leaves (`LeaseFilter`, `Passes`),
  how a start, a retry and a resume end (`Starts`), and what becomes of a deployment's
  record, devices, reports (`Views`) and containers in a pass, in recovery and on
  request (`Fates`).
* **Threads** (`MicroSteps`, `Isolation`, `Interleaving`, `StartOrder`): a pass cut
  into single allocator, repository, docker and control-plane operations, interleaved with
  other triggers and heartbeats under the non-blocking reconcile lock.
* **The GPU allocator** (`GpuAllocator`), a mutable class with its own algebra,
  and the **repository** (`Repository`) that writes the state file on each change.
* **Ports** of a pod (`Ports`), as loops over draws and probes.
* **Multi-node launch**: the argv rewrite (`Argv`, `MultiNode`), the shell that reads
  the result back (`Shell`: sections 2.2 and 2.3 of the POSIX Shell Command Language),
  and the bring-up of head and workers, which runs the programs of the rewrite in time
  and under any interleaving (`BringUp`).

Where the code and its own words differ, the model follows the code:

* The comment at services.py:283-290 says that an unreachable control plane keeps
  runtimes running. `sync_leases` turns that failure into an empty list, and the
  cleanup loop then terminates every runtime that is not suspended. Exactly what
  survives a lease outage is `Orphans.OutageSparesOnlySuspended`; recovery keeps
  everything.
* multinode_launch.py:291-292 promises order-independent bring-up. It holds exactly
  for windows of more than 5 seconds: the condition `WAIT > 5 or WAIT <= 0` of
  `BringUp.OrderIndependenceIff`. The default is 1800.
* The head's server arguments are joined with blanks and handed to a shell. Among
  arguments without expansion characters, they reach the server unchanged exactly
  when none is empty or contains a separator, a quote or an operator
  (`MultiNode.ServedWordsAreExact`); the JSON media limit of vision models on newer
  images has quotes and a blank. About an argument with an expansion character
  (`$`, backquote, `*`, `?`, `[`, `~`, `#`) only this is claimed: it is not among the
  safe ones, and what becomes of it depends on the container.
* The retry of a stuck runtime (services.py:307-322) writes it as terminated before it
  removes it. Killed between the two, the agent never retries it and has told nobody
  (`LostRetries.CrashInRetryLosesDeployment`). Exactly when a deployment is taken up
  again after a crash is `LostRetries.CrashIsRetriedIff`.
* The next pass repairs every overlap a restart can bring back, except that an
  accepted record whose lease is marked suspended is neither retried nor suspended
  (services.py:292-299) and keeps its entry (`Healing.SuspendedLeaseFreezesAccepted`).
  `FrozenOverlap.OverlapIsReachable` is a run that ends in such an overlap.
* A suspended CPU-only pod takes any GPU when it is resumed. If docker start then
  fails, its record keeps the devices it had to give back, and from then on it waits
  for exactly those (`Suspension.FailedResumePinsCpuPod`).
* The inner loop of the port map (services.py:626-628) never ends while the only ports
  to be had are ones the pod already holds; the exact condition is
  `Ports.InnerLoopCanEndIff`.
* Containers are named after the first twelve characters of a deployment id
  (pod.py:80, inference.py:656), so starting a pod removes the container of another
  pod with the same twelve characters. The model does the same. Isolation holds for
  all ids; that a suspended pod keeps its container holds exactly when no pod is run
  under its name (`Names.PodSurvivesPassIff`), and what is lost stays lost
  (`Names.LostPodNeverReturns`).
* `validate_params` accepts two negative degrees; where degrees must be real, the
  condition is that the tensor degree is at least 1 (`MultiNode.ValidatedDegrees`).
* A live CPU-only pod counts as one reserved GPU (`Capacity.AdvertisedIsExact`).

## Model

| member | source | states |
|---|---|---|
| `GpuAllocation.GpuAllocator.constructor` | services/node-agent/src/greencompute_node_agent/domain/gpu_allocator.py:25-34 | an empty allocator over devices 0..N-1 |
| `GpuAllocation.GpuAllocator.FreeDevices` | services/node-agent/src/greencompute_node_agent/domain/gpu_allocator.py:36-42 | the free devices are those of the node that no entry holds |
| `GpuAllocation.GpuAllocator.AllocatedDevices` | services/node-agent/src/greencompute_node_agent/domain/gpu_allocator.py:52-60 | the loop accumulates exactly the devices some entry holds |
| `GpuAllocation.GpuAllocator.Allocate` | services/node-agent/src/greencompute_node_agent/domain/gpu_allocator.py:62-101 | computes `TryAllocate`; a refused call changes nothing |
| `GpuAllocation.GpuAllocator.AllocateSpecific` | services/node-agent/src/greencompute_node_agent/domain/gpu_allocator.py:103-128 | computes `TryAllocateSpecific`; a refused call changes nothing |
| `GpuAllocation.GpuAllocator.Release` | services/node-agent/src/greencompute_node_agent/domain/gpu_allocator.py:130-139 | drops that one entry and returns its devices in ascending order |
| `GpuAllocation.GpuAllocator.Rehydrate` | services/node-agent/src/greencompute_node_agent/domain/gpu_allocator.py:146-164 | records the devices, overlapping or not |
| `GpuAllocation.AllocateIsExact` | services/node-agent/src/greencompute_node_agent/domain/gpu_allocator.py:62-101 | for n > 0: granted if and only if n devices are free outside `avoid`; the grant is the n smallest of them, sorted, and no other entry changes |
| `GpuAllocation.SmallestIsUnique` | services/node-agent/src/greencompute_node_agent/domain/gpu_allocator.py:84-95 | "the n smallest, sorted" names one list only |
| `GpuAllocation.AllocateSpecificIsExact` | services/node-agent/src/greencompute_node_agent/domain/gpu_allocator.py:103-128 | for every caller and any allocations: granted if and only if every requested device is free or already the caller's; the grant lists exactly the requested devices, sorted, and becomes the caller's entry; asked for none, nothing changes |
| `GpuAllocation.OverlapNeverGrows` | services/node-agent/src/greencompute_node_agent/domain/gpu_allocator.py:62-139 | from any state, conflicting ones included, no sequence of allocate, allocate_specific and release makes a device shared that was not |
| `GpuAllocation.ReleaseFreesOnlyItsOwn` | services/node-agent/src/greencompute_node_agent/domain/gpu_allocator.py:130-139 | a device becomes free by a release exactly when the released entry alone held it |
| `GpuAllocation.DevicesAreConserved` | services/node-agent/src/greencompute_node_agent/domain/gpu_allocator.py:36-139 | without rehydrate, sizes of all entries plus free devices always equal the GPU count |
| `Repository.NodeAgentRepository.UpsertRuntime` | services/node-agent/src/greencompute_node_agent/infrastructure/repository.py:66-70 | stores the record under its id, keeps its place or puts a new one last, and writes the new contents to the state file |
| `Repository.NodeAgentRepository.RemoveRuntime` | services/node-agent/src/greencompute_node_agent/infrastructure/repository.py:76-79 | drops the record, closes its place up, and writes the state file |
| `Repository.NodeAgentRepository.GetRuntime` | services/node-agent/src/greencompute_node_agent/infrastructure/repository.py:72-74 | the record of a deployment, if any |
| `Repository.NodeAgentRepository.SnapshotRuntimes` | services/node-agent/src/greencompute_node_agent/infrastructure/repository.py:81-89 | every record once, in dict order |
| `Repository.WithoutClosesUp` | services/node-agent/src/greencompute_node_agent/infrastructure/repository.py:76-79 | the order that removal leaves is the old one with that one place closed up |
| `NodeAgent.NodeAgentService.constructor` | services/node-agent/src/greencompute_node_agent/application/services.py:56-122 | a new process: records from disk, allocator rebuilt from them, containers and reports as they were |
| `NodeAgent.NodeAgentService.RehydrateGpuAllocator` | services/node-agent/src/greencompute_node_agent/application/services.py:124-145 | the rebuilt allocator is `Rehydrated` of the records |
| `NodeAgent.NodeAgentService.ForeignBusyDevices` | services/node-agent/src/greencompute_node_agent/application/services.py:159-169 | busy devices that are not our own; nothing changes |
| `NodeAgent.NodeAgentService.BuildCapacityUpdate` | services/node-agent/src/greencompute_node_agent/application/services.py:171-223 | computes `AvailableGpus`; reads only, so a heartbeat changes nothing |
| `NodeAgent.NodeAgentService.FailRuntime` | services/node-agent/src/greencompute_node_agent/application/services.py:837-855 | the state becomes `FailRuntime` of the old one |
| `NodeAgent.NodeAgentService.TerminateRuntime` | services/node-agent/src/greencompute_node_agent/application/services.py:857-898 | the state becomes `TerminateRuntime` of the old one |
| `NodeAgent.NodeAgentService.SuspendRuntime` | services/node-agent/src/greencompute_node_agent/application/services.py:900-969 | the state becomes `SuspendRuntime` of the old one |
| `NodeAgent.NodeAgentService.RunContainer` | services/node-agent/src/greencompute_node_agent/domain/pod.py:74-258 | every container of that kind and name goes, whoever owns it, then one runs on the named devices, or on every device of the node for a replica or fraction that names none |
| `NodeAgent.NodeAgentService.LaunchContainer` | services/node-agent/src/greencompute_node_agent/application/services.py:556-582 | save as starting, start the backend, save as ready and report, or fail |
| `NodeAgent.NodeAgentService.StartInferenceRuntime` | services/node-agent/src/greencompute_node_agent/application/services.py:431-582 | the start handler computes `StartRuntime` |
| `NodeAgent.NodeAgentService.StartPodRuntime` | services/node-agent/src/greencompute_node_agent/application/services.py:584-766 | the start handler computes `StartRuntime` |
| `NodeAgent.NodeAgentService.StartVmRuntime` | services/node-agent/src/greencompute_node_agent/application/services.py:768-798 | the start handler computes `StartRuntime` |
| `Starts.StartFate` | services/node-agent/src/greencompute_node_agent/application/services.py:431-798 | how a start ends: ready on the smallest usable devices, or failed with everything given back (no SSH, too few devices, weights or volume not to be had, backend refuses), or broken off holding its devices, each under its exact condition and with the exact record, containers and report |
| `Starts.NewLeaseFate` | services/node-agent/src/greencompute_node_agent/application/services.py:390-427 | the same for a lease of an unknown deployment from the state before it, and what is reported when there is no workload to be had |
| `Starts.CpuPodNeedsNoGpu` | services/node-agent/src/greencompute_node_agent/application/services.py:638-652 | a pod of a template without GPU with a working backend ends ready with no device on a full node, and the allocator is left alone |
| `Starts.MemoryIsExact` | services/node-agent/src/greencompute_node_agent/application/services.py:688-698 | the grant q of g of h GPUs in M GB has q*h <= M*g < (q+1)*h, or is 1 where that would be 0; a smaller positive request is granted exactly |
| `Starts.SharesAreUnique` | services/node-agent/src/greencompute_node_agent/application/services.py:688-698 | those bounds leave one number |
| `Starts.RetryFate` | services/node-agent/src/greencompute_node_agent/application/services.py:307-322 | a stuck record is handled exactly as if it had been forgotten, its devices and container given up and nobody told |
| `Starts.SettledFate` | services/node-agent/src/greencompute_node_agent/application/services.py:323-324 | a ready, failed, terminated or preparing record is left alone by an active lease |
| `Starts.PodResumeFate` | services/node-agent/src/greencompute_node_agent/application/services.py:971-1027 | the exact end of a pod's resume: in service on its own devices and container, still suspended, or untouched |
| `Starts.FreshResumeFate` | services/node-agent/src/greencompute_node_agent/application/services.py:1029-1054 | the exact end of a replica's or VM's resume: a fresh start on what its workload asks for, once as many devices as it had are to be had |
| `NodeAgent.NodeAgentService.ReconcileWorkload` | services/node-agent/src/greencompute_node_agent/application/services.py:390-427 | the dispatch computes `Dispatch` |
| `NodeAgent.NodeAgentService.ResumeRuntime` | services/node-agent/src/greencompute_node_agent/application/services.py:971-1054 | the resume computes `ResumeRuntime`, including whether an exception escapes |
| `NodeAgent.NodeAgentService.HandleLease` | services/node-agent/src/greencompute_node_agent/application/services.py:279-337 | one iteration of the lease loop computes `HandleLease` |
| `NodeAgent.NodeAgentService.OwnLeases` | services/node-agent/src/greencompute_node_agent/application/services.py:257-269 | what is left is the fleet's list without the leases that name another node: in order, each as often as listed |
| `LeaseFilter.MineIsExact` | services/node-agent/src/greencompute_node_agent/application/services.py:257-269 | the positions of the kept leases are exactly those whose node id is empty or this node's, in ascending order |
| `Passes.PassIsInTurn` | services/node-agent/src/greencompute_node_agent/application/services.py:247-388 | a pass serves exactly those leases one after another, each from the state the one before left, until an exception escapes; then the records present at that point in dict order |
| `Fates.LeasedElsewhereFate` | services/node-agent/src/greencompute_node_agent/application/services.py:257-269 | a deployment all of whose leases name other nodes: nothing is started, held or said for it here; a live record is ended, and reported TERMINATED exactly when nobody leases it; a suspended one goes only when its deployment is TERMINATED |
| `Fates.LeasedElsewhereRunsNothing` | services/node-agent/src/greencompute_node_agent/application/services.py:257-269 | and without a record it gets neither record, nor devices, nor container, nor report |
| `Fates.SuspensionFate` | services/node-agent/src/greencompute_node_agent/application/services.py:290-299 | leases of this node that are all marked suspended: a ready or starting runtime is suspended, gives up its devices and is reported once, anything else stays as it is |
| `NodeAgent.NodeAgentService.CleanUpAll` | services/node-agent/src/greencompute_node_agent/application/services.py:339-388 | the cleanup loop over a snapshot computes `CleanupLoop` |
| `NodeAgent.NodeAgentService.ReconcileOnceLocked` | services/node-agent/src/greencompute_node_agent/application/services.py:247-388 | both loops together compute `Reconcile` |
| `NodeAgent.NodeAgentService.ReconcileOnce` | services/node-agent/src/greencompute_node_agent/application/services.py:234-245 | `Reconcile` when the lock was free, nothing at all when it was taken; the lock ends as it was |
| `NodeAgent.NodeAgentService.RecoverRuntimeStateLocked` | services/node-agent/src/greencompute_node_agent/application/services.py:1091-1143 | the recovery loop computes `Recover` |
| `Passes.RecoveryIsInTurn` | services/node-agent/src/greencompute_node_agent/application/services.py:1091-1143 | recovery treats the records it finds one after another, in dict order |
| `Fates.RecoveryFate` | services/node-agent/src/greencompute_node_agent/application/services.py:1091-1143 | the exact record, devices and reports of every deployment after recovery: a live one is kept if and only if the control plane is unreachable or says READY, STARTING, SCHEDULED, PULLING, DRAINING or SUSPENDED, otherwise it is terminated with no devices, and reported exactly when it is FAILED or TERMINATED there |
| `Fates.RecoveryContainerFate` | services/node-agent/src/greencompute_node_agent/application/services.py:1070-1077 | a deployment of which recovery keeps record and devices keeps every container; one that it ends is left with none |
| `NodeAgent.NodeAgentService.RecoverRuntimeState` | services/node-agent/src/greencompute_node_agent/application/services.py:1079-1089 | `Recover` when the lock was free, "busy" and no change when it was taken |
| `NodeAgent.NodeAgentService.TerminateDeployment` | services/node-agent/src/greencompute_node_agent/application/services.py:1056-1061 | computes `UserTerminate`; unknown deployments change nothing |
| `Fates.RequestedTermination` | services/node-agent/src/greencompute_node_agent/application/services.py:1056-1061 | whatever its state, a known deployment is terminated, holds no devices and no container, and is reported TERMINATED |
| `Exclusivity.ReconcileKeepsExclusive` | services/node-agent/src/greencompute_node_agent/application/services.py:247-388 | a pass, under any answers, keeps: starting and ready records hold exactly their allocator entry, suspended, failed, terminated and absent ones hold nothing, live records are disjoint, in memory and in every state file written |
| `Exclusivity.RecoverKeepsExclusive` | services/node-agent/src/greencompute_node_agent/application/services.py:1091-1143 | recovery keeps the same |
| `Exclusivity.UserTerminateKeepsExclusive` | services/node-agent/src/greencompute_node_agent/application/services.py:1056-1061 | a requested termination keeps the same |
| `Exclusivity.RehydratedIsRecorded` | services/node-agent/src/greencompute_node_agent/application/services.py:124-145 | after a restart the entries are exactly those of the accepted, preparing, starting and ready records that name devices, each with its devices |
| `Exclusivity.RestartKeepsExclusive` | services/node-agent/src/greencompute_node_agent/application/services.py:124-145 | reload plus rehydrate from any sound state file re-establishes exclusivity |
| `Exclusivity.EverySaveIsRecoverable` | services/node-agent/src/greencompute_node_agent/application/services.py:247-388 | every single file written inside a pass is one a restart recovers from |
| `Exclusivity.RetryHealsOverlap` | services/node-agent/src/greencompute_node_agent/application/services.py:307-326 | the overlap a reloaded accepted record may cause ends with its retry: afterwards nobody shares its devices |
| `Healing.NextPassHealsOverlap` | services/node-agent/src/greencompute_node_agent/application/services.py:307-326 | from any sane state without `preparing` records, the next pass under fixed answers leaves all entries in range and pairwise disjoint, provided no accepted record's own lease is marked suspended |
| `Healing.NextPassHealsEveryCrash` | services/node-agent/src/greencompute_node_agent/application/services.py:124-145 | in particular after any run of a fresh node with any crashes in it, provided no accepted record's own lease is marked suspended |
| `Healing.SuspendedLeaseFreezesAccepted` | services/node-agent/src/greencompute_node_agent/application/services.py:292-299 | the one exclusion: an accepted record leased here only as suspended keeps record and entry, overlap included, through every pass |
| `FrozenOverlap.OverlapOutlivesThePass` | services/node-agent/src/greencompute_node_agent/application/services.py:1029-1054 | the failing family: a resume killed right after its first write, a replica ready on one of its old devices, and a lease suspended again; the next pass leaves the overlap |
| `FrozenOverlap.OverlapIsReachable` | services/node-agent/src/greencompute_node_agent/application/services.py:1029-1054 | a concrete run of a fresh node with two devices ends there |
| `LostRetries.PassTakesUpIff` | services/node-agent/src/greencompute_node_agent/application/services.py:307-324 | a pass that runs through writes or reports something new about a deployment with an active own lease if and only if its record is not already settled: ready, failed, terminated, or `preparing`, which no run produces |
| `LostRetries.CrashIsRetriedIff` | services/node-agent/src/greencompute_node_agent/application/services.py:307-324 | after a crash at any write of a pass, the next pass takes the deployment up if and only if the last file written does not hold it as settled |
| `LostRetries.EveryCrashIsRetriedIff` | services/node-agent/src/greencompute_node_agent/application/services.py:307-324 | after any run of a fresh node and a crash at any write of the next pass: taken up if and only if the last file does not hold it as ready, failed or terminated |
| `LostRetries.CrashInRetryLosesDeployment` | services/node-agent/src/greencompute_node_agent/application/services.py:318-322 | killed between the two writes of a retry, a deployment whose lease is active is terminated forever and the control plane is told nothing |
| `StartOrder.DevicesAreNamedBeforeDockerRun` | services/node-agent/src/greencompute_node_agent/application/services.py:556-560 | in every schedule, when a container is about to be run the state file already holds that very record with its devices |
| `Containers.ReconcileKeepsNode` | services/node-agent/src/greencompute_node_agent/application/services.py:247-388 | a pass, whatever the ids and their names, keeps in addition: every container belongs to a ready (or suspended pod) record that names it, runs only while ready, and is pinned inside that record's devices |
| `Containers.RecoverKeepsNode` | services/node-agent/src/greencompute_node_agent/application/services.py:1091-1143 | recovery keeps the same |
| `Containers.RunningContainersAreIsolated` | services/node-agent/src/greencompute_node_agent/domain/pod.py:74-258 | two running containers of different deployments never see a common GPU |
| `Containers.EquippedIsPinned` | services/node-agent/src/greencompute_node_agent/domain/gpu_docker.py:123-155 | the docker flags pass through no device outside the recorded ones, whatever was granted |
| `Runs.EveryRunIsExclusive` | services/node-agent/src/greencompute_node_agent/application/services.py:124-145 | exclusivity over every run of passes, recoveries, terminations, restarts, and crashes in the middle of a pass |
| `Runs.EveryRunIsIsolated` | services/node-agent/src/greencompute_node_agent/application/services.py:247-388 | container isolation over every run whose process is not killed inside a pass, clashing container names included |
| `ContainerIds.EveryRunIsSane` | services/node-agent/src/greencompute_node_agent/application/services.py:124-145 | over every run, crashes that leave arbitrary containers behind included: exclusivity, and no record or container carries an id docker has yet to issue |
| `LiveContainers.ReadyRuntimesHaveContainers` | services/node-agent/src/greencompute_node_agent/domain/pod.py:80-100 | over every run of a fresh node not killed inside a pass, as long as the names of the deployments leased to it do not clash, every ready pod or replica and every suspended pod has a container of its own |
| `LiveContainers.EveryRunStaysIntact` | services/node-agent/src/greencompute_node_agent/application/services.py:247-388 | the same from any node where it holds |
| `Names.NamesAgreeIff` | services/node-agent/src/greencompute_node_agent/domain/pod.py:80-100 | `docker rm -f` by name removes exactly this deployment's containers of the kind if and only if no container of that kind belongs to another deployment with the same first twelve characters |
| `Names.PodIsDisplacedIff` | services/node-agent/src/greencompute_node_agent/domain/pod.py:80-100 | handling another deployment's lease costs a pod its container if and only if that lease gets as far as running a pod under the same name; otherwise the container stays as it is |
| `Names.PodSurvivesPassIff` | services/node-agent/src/greencompute_node_agent/application/services.py:247-388 | a suspended pod not given up by its control plane comes out of a pass with its container if and only if no lease of the pass, when its turn comes, runs a pod under its name; otherwise the container is gone |
| `Names.LostPodNeverReturns` | services/node-agent/src/greencompute_node_agent/domain/pod.py:343-385 | once the container is gone no order and no answer of docker brings the pod back: over every run not killed inside a pass its record is never ready again while it names that container |
| `Passes.CrashIsExact` | services/node-agent/src/greencompute_node_agent/infrastructure/repository.py:53-79 | what any run leaves when it is killed inside its next pass or recovery: the last file written by then, the reports sent by then, containers with issued ids, and an allocator rebuilt from that file |
| `Passes.QuietRestartIsExact` | services/node-agent/src/greencompute_node_agent/application/services.py:124-145 | a restart between passes rebuilds the allocator from the records and changes nothing else; a heartbeat changes nothing |
| `Runs.LiveRecordsNeverShareDevices` | services/node-agent/src/greencompute_node_agent/application/services.py:104-120 | spelled out for a fresh node: live records hold what the allocator says, never share a device, and absent deployments hold none |
| `Lifecycle.TerminatedIsForever` | services/node-agent/src/greencompute_node_agent/application/services.py:339-344 | a terminated record stays exactly as it is over any run, crashes included |
| `Lifecycle.FailedNeverRevives` | services/node-agent/src/greencompute_node_agent/application/services.py:307-324 | a failed record only stays failed or becomes terminated |
| `Lifecycle.OnlyOrdersSuspend` | services/node-agent/src/greencompute_node_agent/application/services.py:282-299 | a runtime becomes suspended only in a pass whose leases include one of this node explicitly marked suspended |
| `Lifecycle.NothingIsEverPreparing` | services/node-agent/src/greencompute_node_agent/application/services.py:124-145 | no record of a run, and no state file written in it, is ever `preparing`, a status the agent treats as live |
| `Reports.LeasesReportNoTermination` | services/node-agent/src/greencompute_node_agent/application/services.py:278-337 | starting, retrying, suspending and resuming never report TERMINATED |
| `Reports.ReconcileReportsAreJustified` | services/node-agent/src/greencompute_node_agent/application/services.py:339-388 | a pass reports TERMINATED only for deployments missing from the fetched fleet-wide list or already TERMINATED at the control plane |
| `Reports.RecoveryReportsAreJustified` | services/node-agent/src/greencompute_node_agent/application/services.py:1108-1137 | recovery reports TERMINATED only for deployments the control plane already calls TERMINATED or FAILED |
| `Reports.EveryTerminationIsEntitled` | services/node-agent/src/greencompute_node_agent/application/services.py:857-898 | every TERMINATED report in the log of any run was made during an event of that run which entitles it |
| `Reports.DuplicatesAreShedQuietly` | services/node-agent/src/greencompute_node_agent/application/services.py:372-384 | a runtime whose lease is pinned elsewhere loses its GPUs and every container with no report, and nobody else changes |
| `FaithfulReports.ReportsAreFaithful` | services/node-agent/src/greencompute_node_agent/application/services.py:824-855 | over any run not killed inside a pass, a ready, failed or suspended record is exactly what the control plane was last told about that deployment |
| `FaithfulReports.LeaseStaysFaithful` | services/node-agent/src/greencompute_node_agent/application/services.py:278-337 | one lease, whatever is answered, keeps that so for every deployment |
| `Orphans.CleanupFate` | services/node-agent/src/greencompute_node_agent/application/services.py:339-388 | in the cleanup every record meets its own fate, whatever happens to the others: kept, removed, or terminated |
| `Orphans.UnleasedFate` | services/node-agent/src/greencompute_node_agent/application/services.py:247-388 | the exact record, after one pass, of a runtime nothing leases on this node |
| `Orphans.OutageSparesOnlySuspended` | services/node-agent/src/greencompute_node_agent/application/services.py:227-232 | a pass that cannot fetch the leases leaves a record as it is if and only if it is terminated, or suspended and not known to be terminated |
| `Orphans.RecoveryOutageChangesNothing` | services/node-agent/src/greencompute_node_agent/application/services.py:1101-1114 | recovery changes nothing at all while the control plane is unreachable |
| `Suspension.PodResumeIsAllOrNothing` | services/node-agent/src/greencompute_node_agent/application/services.py:980-1027 | for every suspended pod: ready in the same container, on exactly its devices if it named any, if and only if those (or any, for a CPU-only pod) are to be had and docker start works; otherwise still suspended with all allocations and containers as before, and naming the same devices if and only if it named some or was granted none |
| `Suspension.FailedResumePinsCpuPod` | services/node-agent/src/greencompute_node_agent/application/services.py:980-1024 | a CPU-only pod whose docker start fails names the granted devices from then on, and resumes only when exactly those are free |
| `Suspension.SuspendedPodSurvivesReconcile` | services/node-agent/src/greencompute_node_agent/application/services.py:290-305 | record and container survive any pass that starts no other pod under the same name, unless nothing here leases it and it is TERMINATED; untouched unless asked to resume |
| `Suspension.SuspendedPodSurvivesRecovery` | services/node-agent/src/greencompute_node_agent/application/services.py:1098-1137 | record and container survive recovery unless the control plane says not found, PENDING, FAILED or TERMINATED; the states are spelled out |
| `Suspension.SuspendedPodSurvivesRuns` | services/node-agent/src/greencompute_node_agent/domain/pod.py:322-385 | over whole runs the record and the stopped container are exactly as they were until an event ends the suspension or starts another pod under the same name |
| `Suspension.SuspendedRecordSurvivesRuns` | services/node-agent/src/greencompute_node_agent/application/services.py:345-371 | the record of a suspended runtime of any kind survives every run, crashes inside passes included |
| `Stabilisation.ReconcileStabilises` | services/node-agent/src/greencompute_node_agent/application/services.py:247-388 | with leases and answers fixed, from any exclusive state with issued container ids every pass after the second changes no record, container or allocation |
| `Stabilisation.EveryRunStabilises` | services/node-agent/src/greencompute_node_agent/application/services.py:247-388 | in particular after every run of a fresh node, whatever crashes it went through |
| `Stabilisation.SecondLoopIsFinal` | services/node-agent/src/greencompute_node_agent/application/services.py:971-1001 | in the second pass the held devices only grow, so a refused resume stays refused |
| `Stabilisation.FixedPointIsQuiet` | services/node-agent/src/greencompute_node_agent/application/services.py:247-388 | a fixed point stays one |
| `Stabilisation.SecondPassMayStillResume` | services/node-agent/src/greencompute_node_agent/application/services.py:294-305 | a concrete node where the second pass still changes a record: two passes are needed |
| `Stabilisation.BlockedIsSound` | services/node-agent/src/greencompute_node_agent/application/services.py:372-388 | that node meets every invariant and the hypotheses of the stabilisation theorem |
| `Capacity.ReservedTotal` | services/node-agent/src/greencompute_node_agent/application/services.py:180-184 | the reservation loop is the sum over the live records of the devices they name, else of their count, and of one at least |
| `Capacity.AdvertisedTotal` | services/node-agent/src/greencompute_node_agent/application/services.py:180-196 | in every state the advertised number is the GPUs less that sum and less the busy devices nobody here holds, and never negative |
| `Capacity.AdvertisedIsHonourable` | services/node-agent/src/greencompute_node_agent/application/services.py:159-196 | while accepted records hold no device they do not name, an allocation of up to the advertised number of GPUs with the same busy devices succeeds, even after overlapping rehydration |
| `Capacity.AdvertisedIsExact` | services/node-agent/src/greencompute_node_agent/application/services.py:159-196 | when entries are disjoint and in range it is exactly the free and idle devices, less one for every live CPU-only pod |
| `Capacity.AdvertisedGpusServe` | services/node-agent/src/greencompute_node_agent/application/services.py:171-196 | a new lease for at most the advertised number of GPUs, with the same busy devices and a working backend, ends ready on that many devices, all free and not busy |
| `HostMemory.ShareIsProportional` | services/node-agent/src/greencompute_node_agent/application/services.py:688-698 | with at least 1 GB per GPU, a grant for g GPUs is at most g/N of the memory (from below: `Starts.MemoryIsExact`) |
| `HostMemory.EveryRunKeepsMemory` | services/node-agent/src/greencompute_node_agent/application/services.py:684-698 | every pod record keeps a grant within the share of the devices it names, over any run |
| `HostMemory.MemoryIsNeverOversubscribed` | services/node-agent/src/greencompute_node_agent/application/services.py:684-731 | after any run of a fresh node the grants of all starting and ready GPU pods sum to at most the host memory |
| `Interleaving.PassRuns` | services/node-agent/src/greencompute_node_agent/application/services.py:247-388 | run operation by operation to its end, a pass computes `Reconcile` or `Recover`; from a sound node no operation on the way lets two running containers share a GPU |
| `Interleaving.EveryScheduleIsSerial` | services/node-agent/src/greencompute_node_agent/application/services.py:104-112 | for every schedule of any number of threads at single operations: whenever the lock is free, the state is that of the winning passes run one after another |
| `Interleaving.AtMostOneInside` | services/node-agent/src/greencompute_node_agent/application/services.py:239-245 | at most one thread is inside a pass, and only under the lock |
| `Interleaving.IdleTriggerWinsIff` | services/node-agent/src/greencompute_node_agent/application/services.py:239-245 | an idle thread's trigger wins if and only if no thread is inside a pass; then all of that pass lies before it, otherwise nothing changes |
| `Interleaving.LosersAndHeartbeatsChangeNothing` | services/node-agent/src/greencompute_node_agent/application/services.py:239-241 | a trigger that loses the lock and both reads of every heartbeat leave the whole shared state alone |
| `Interleaving.UndisturbedHeartbeatIsExact` | services/node-agent/src/greencompute_node_agent/application/services.py:171-196 | a heartbeat whose two reads fall outside every pass advertises exactly the capacity of the shared state, whatever other heartbeats and losing triggers do in between |
| `Interleaving.IsolatedAtEveryMoment` | services/node-agent/src/greencompute_node_agent/application/services.py:104-112 | at every moment of every schedule, in the middle of a pass too and whatever the names, two running containers of different deployments share no GPU |
| `Interleaving.TheLockIsAlwaysReleased` | services/node-agent/src/greencompute_node_agent/application/services.py:242-245 | from any point of any schedule the holder, left to run, releases the lock in the promised state, even when its pass raises |
| `Interleaving.NoScheduleDoubleAllocates` | services/node-agent/src/greencompute_node_agent/application/services.py:105-112 | no race between triggers allocates a device twice or orphans a container |
| `Ports.NormalisePorts` | services/node-agent/src/greencompute_node_agent/application/services.py:601-614 | at most ten distinct ports in 1..65535 without 22, in order of first mention; a wanted port is missing only when ten others were kept |
| `Ports.DistinctIsExact` | services/node-agent/src/greencompute_node_agent/application/services.py:605-612 | the accepted ports are exactly the acceptable ones requested, each once |
| `Ports.DistinctKeepsOrder` | services/node-agent/src/greencompute_node_agent/application/services.py:605-612 | and each stands where the request first mentions it |
| `Ports.ChooseFreePort` | services/node-agent/src/greencompute_node_agent/domain/ssh.py:98-119 | raises exactly when every port of [start, end) was drawn and none is available; otherwise returns the first available one drawn |
| `Ports.NoneLeft` | services/node-agent/src/greencompute_node_agent/domain/ssh.py:104-119 | pigeonhole: end - start distinct tried ports are all there are |
| `Ports.ChooseUnused` | services/node-agent/src/greencompute_node_agent/application/services.py:624-629 | the inner loop computes `ChooseAgain`: a port this pod does not hold, an exhausted range, or still choosing when the draws end |
| `Ports.AssignPorts` | services/node-agent/src/greencompute_node_agent/application/services.py:618-636 | the map is injective, its domain is a prefix of the request, hosts are in the user range; same number whenever possible; cut short only by an exhausted range, unfinished only while the inner loop has not ended |
| `Ports.InnerLoopCanEndIff` | services/node-agent/src/greencompute_node_agent/application/services.py:626-628 | some draws end the inner loop if and only if some call sees a port this pod does not hold, or no port at all |
| `Ports.SpinsForever` | services/node-agent/src/greencompute_node_agent/application/services.py:626-628 | while every call sees only ports this pod holds, no draws end the loop, however many |
| `Ports.MorePortsThanHeldSuffice` | services/node-agent/src/greencompute_node_agent/application/services.py:626-628 | more available ports than the pod holds rule that out |
| `Ports.PodPorts` | services/node-agent/src/greencompute_node_agent/application/services.py:601-636 | both loops together, from the raw request to the map |
| `MultiNode.DefaultDegreesFit` | services/node-agent/src/greencompute_node_agent/domain/multinode_launch.py:94-112 | omitted degrees always multiply to the reserved GPUs and keep tensor parallelism inside a node |
| `MultiNode.ParseIsExact` | services/node-agent/src/greencompute_node_agent/domain/multinode_launch.py:81-115 | a payload is read if and only if it names a role and its numbers are numbers; every field, with the defaults 0, GPUs per node, nodes, 6379 and 1800 |
| `MultiNode.ValidateParams` | services/node-agent/src/greencompute_node_agent/domain/multinode_launch.py:118-142 | the problems appended are `Problems` |
| `MultiNode.Problems` | services/node-agent/src/greencompute_node_agent/domain/multinode_launch.py:118-142 | a problem is listed exactly when it is present |
| `MultiNode.ProblemsAreExact` | services/node-agent/src/greencompute_node_agent/domain/multinode_launch.py:118-142 | which of the seven problems are listed, spelled out, and in which order |
| `MultiNode.ValidIff` | services/node-agent/src/greencompute_node_agent/domain/multinode_launch.py:118-142 | no problem means: two nodes or more with a GPU each, degrees that multiply to the GPUs, tensor parallelism inside a node, rank 0 for the head and only for it, and a host for a worker to join |
| `MultiNode.ValidatedDegrees` | services/node-agent/src/greencompute_node_agent/domain/multinode_launch.py:69-77 | validated: tensor x pipeline equals the reserved GPUs; the tensor degree is at least 1 if and only if the pipeline is, and if and only if the pipeline has a stage per node |
| `MultiNode.NegativeDegreesPassValidation` | services/node-agent/src/greencompute_node_agent/domain/multinode_launch.py:118-142 | two negative degrees pass validation |
| `Argv.Strip` | services/node-agent/src/greencompute_node_agent/domain/multinode_launch.py:371-409 | the skip_next loop drops each named token with its follower |
| `Argv.DropIsIdempotent` | services/node-agent/src/greencompute_node_agent/domain/multinode_launch.py:371-409 | stripping twice is stripping once, for every argv |
| `Argv.DropRemovesOptions` | services/node-agent/src/greencompute_node_agent/domain/multinode_launch.py:371-409 | on a well-formed argv stripping removes exactly those options, all others in order |
| `Argv.ExceptMeans` | services/node-agent/src/greencompute_node_agent/domain/multinode_launch.py:390-409 | the meaning of all other options is unchanged |
| `Argv.StrRoundTrip` | services/node-agent/src/greencompute_node_agent/domain/multinode_launch.py:272-279 | a degree printed in decimal reads back as itself |
| `MultiNode.SetShmSize` | services/node-agent/src/greencompute_node_agent/domain/multinode_launch.py:229-247 | drops any old size and inserts the new one right after `docker run`, or first when the flags do not start with it |
| `MultiNode.ShmSetOverrides` | services/node-agent/src/greencompute_node_agent/domain/multinode_launch.py:229-247 | the last size set wins, for every argv; so setting it twice is setting it once |
| `MultiNode.ExactlyOneShm` | services/node-agent/src/greencompute_node_agent/domain/multinode_launch.py:229-247 | exactly one --shm-size token is left, for every argv |
| `MultiNode.NoPortIsPublished` | services/node-agent/src/greencompute_node_agent/domain/multinode_launch.py:371-387 | no publish option is left, for every argv |
| `MultiNode.SharedMemoryIsGivenOnce` | services/node-agent/src/greencompute_node_agent/domain/multinode_launch.py:429-434 | the final docker flags hold exactly one --shm-size |
| `MultiNode.DockerFlagsKeepTheRest` | services/node-agent/src/greencompute_node_agent/domain/multinode_launch.py:429-434 | the flags are a shared memory of 32g, every other docker option in order, and host networking, the descriptor limit and the shell as entry point |
| `MultiNode.BuildDockerCommand` | services/node-agent/src/greencompute_node_agent/domain/multinode_launch.py:412-445 | the rewrite computes these flags and the program of the role, whose steps `BringUp.ProgramsAgree` spells out |
| `Shell.SurvivesIffSafe` | services/node-agent/src/greencompute_node_agent/domain/multinode_launch.py:321-329 | joined with blanks and read by `sh -c`, arguments are the words of the command if and only if every one is safe: non-empty, without separator, quote or operator; a line the shell would expand has no words here, so for expansion characters only safe-implies-survives is a claim about the shell |
| `Shell.QuotedPartIsUnquoted` | services/node-agent/src/greencompute_node_agent/domain/multinode_launch.py:321-329 | a double-quoted part of an argument arrives without its quotes |
| `MultiNode.ServedWordsAreExact` | services/node-agent/src/greencompute_node_agent/domain/multinode_launch.py:315-329 | the head's shell runs the entry with exactly the kept and added arguments if and only if every kept argument is safe, with the same reading of expansion characters |
| `MultiNode.DefaultEntryIsComplete` | services/node-agent/src/greencompute_node_agent/domain/multinode_launch.py:341-341 | the default entry is three words and leaves no quote open |
| `MultiNode.QuotedLimit` | services/node-agent/src/greencompute_node_agent/domain/inference.py:786-790 | a JSON limit without a blank reaches the server without its quotes |
| `MultiNode.VisionLimitIsTornApart` | services/node-agent/src/greencompute_node_agent/domain/inference.py:786-790 | the JSON limit given to vision models on newer images does not survive, with its blank or without |
| `MultiNode.JoinedFormSurvives` | services/node-agent/src/greencompute_node_agent/domain/multinode_launch.py:398-408 | an option written --name=value is not stripped |
| `MultiNode.HeadServesTheSameModel` | services/node-agent/src/greencompute_node_agent/domain/multinode_launch.py:412-445 | for every well-formed argv of safe words: same entry, same other options in order and meaning, each parallelism option exactly once with the value of the topology |
| `MultiNode.LaunchCommand` | services/node-agent/src/greencompute_node_agent/domain/inference.py:794-813 | no payload: untouched; problems: rejected with all of them; otherwise the rewritten command of validated parameters |
| `MultiNode.HeadAwaitsWhatItServes` | services/node-agent/src/greencompute_node_agent/domain/multinode_launch.py:250-279 | the GPUs the head waits for are the tensor x pipeline its server then reads |
| `BringUp.ProgramsAgree` | services/node-agent/src/greencompute_node_agent/domain/multinode_launch.py:218-329 | the programs of one replica: the head opens Ray at its port with its GPUs and waits for those of all nodes; each worker dials the head there, declares its own, and waits equally long |
| `BringUp.WorkerJoins` | services/node-agent/src/greencompute_node_agent/domain/multinode_launch.py:299-311 | the loop joins at a retry, ten seconds apart, that finds the head up, or gives up at the first one that is too late; in closed form too |
| `BringUp.HeadWaits` | services/node-agent/src/greencompute_node_agent/domain/multinode_launch.py:256-265 | the loop serves if and only if some poll, five seconds apart and begun before the deadline, finds the GPUs, which is so if and only if the last one does |
| `BringUp.ServesExactlyWhenAllJoin` | services/node-agent/src/greencompute_node_agent/domain/multinode_launch.py:250-312 | running these programs, with GPUs counted as their Ray commands declare them, the head serves if and only if every worker joins by the last poll |
| `BringUp.OrderIndependenceIff` | services/node-agent/src/greencompute_node_agent/domain/multinode_launch.py:285-293 | starts up to the window apart always succeed if and only if the window is over 5 seconds (or leaves no spread at all) |
| `BringUp.BringUpIsOrderIndependent` | services/node-agent/src/greencompute_node_agent/domain/multinode_launch.py:282-329 | running these programs, any number of workers started in any order within the window all join and the head serves |
| `BringUp.ServesOnlyWithEveryRank` | services/node-agent/src/greencompute_node_agent/domain/multinode_launch.py:250-269 | in every interleaving of the steps of these programs and of departures, the head goes on to its server only after its wait saw every rank with the GPUs of its node |
| `BringUp.ServesWithEnoughGpus` | services/node-agent/src/greencompute_node_agent/domain/multinode_launch.py:18-28 | and those are exactly tensor x pipeline GPUs |
| `BringUp.WrongDoorStaysShut` | services/node-agent/src/greencompute_node_agent/domain/multinode_launch.py:218-226 | a worker whose program dials another address, or another port than the head's opens, never joins, in time or in any interleaving |

## Left out

- Docker, nvidia-smi, ssh-keygen, Firecracker, Ray, vLLM and the control plane's HTTP API: replaced by inputs that may answer anything.
- Backends raise only their declared errors, raising means nothing is running, and stop and pause calls succeed; other behaviour of a backend is not modelled. A lookup that fails raises the client's own HTTP error.
- Containers after a crash between `docker run` and the following save: the record has no container id yet, so after a crash the containers are arbitrary among the ids docker has issued, and the claims that remain are those on records, allocator, state files and ids.
- `terminate_deployment` running at the same time as a pass: it does not take the reconcile lock. It is an atomic event between passes.
- Capacity read in the middle of a pass: the bound is claimed while accepted records hold no device they do not name.
- A state file that cannot be read (the agent then starts empty), and records whose id differs from their key.
- Volumes, artifacts, CPU shares, image selection, endpoints, timestamps and error texts of a record.
- HostMemory.ShareIsProportional: the grant is the exact floor of memory x GPUs / host GPUs; the code computes it in floating point, which is not modelled.
- Stabilisation.ReconcileStabilises: leases have distinct deployments and artifact or volume preparation never raises an undeclared error; the start may fail in every declared way. The same holds for `Healing.NextPassHealsOverlap`.
- FaithfulReports.ReportsAreFaithful: reports are what the agent sends; one that is lost on the way is logged by the code and not sent again.
- Containers.RunningContainersAreIsolated: claimed for runs whose process is not killed inside a pass.
- Ports.AssignPorts: the random draws are a finite list. When they end the result says it is unfinished; whether longer lists can end the inner loop is `Ports.InnerLoopCanEndIff`.
- Parsing the output of `docker ps`: the ports docker publishes are an input.
- Ports.ChooseFreePort: availability of a port is what the one probe of it answered; another process taking it afterwards is not modelled.
- MultiNode.ServedWordsAreExact: what the shell makes of an expansion character depends on variables and files of the container and is not modelled, and neither is its place in the word (`~` and `#` count as such wherever they stand). The entry leaves no quote open, as the default one does.
- The network-interface probe; the text of the scripts.
- MultiNode.HeadServesTheSameModel: options are read token by token; the form --name=value is one unknown token, as `MultiNode.JoinedFormSurvives` shows for the rewrite itself.
- Letter case of roles and lease statuses: both arrive normalised.
- BringUp.ProgramsAgree: the ranks of a replica get parameters that agree on sizes, port and wait, and workers dial the address where the head is; the control plane hands these out.
- BringUp.WorkerJoins: time is whole seconds, a join attempt is instantaneous, and it succeeds exactly from the moment the head's Ray is up.
- Process and local inference backends, streaming, health checks, telemetry, attestation, routes and settings: plain code around the parts modelled here, with no protocol or invariant of its own.
