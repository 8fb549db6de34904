/** What one pass computes (application/services.py), on values: records, GPU
    allocations, containers, reports, and every state file written. The outside world's
    answers are inputs; every handler, recovery, restart and heartbeat is a function. */
module NodeModel {
  import opened Common
  import opened GpuAllocation
  import opened Repository

  datatype Config = Config(nodeId: string, totalGpus: nat, memoryGb: nat)

  // ------------------------------------------------------------ the host's docker

  datatype Container = Container(owner: string, kind: Kind, devices: set<int>, running: bool)

  datatype Docker = Docker(containers: map<nat, Container>, nextId: nat)

  const NAME_LENGTH := 12

  // A container's name is its kind and this much of its deployment id.
  function Name(d: string): string {
    if |d| <= NAME_LENGTH then d else d[..NAME_LENGTH]
  }

  predicate HasName(k: Container, owner: string, kind: Kind) {
    k.kind == kind && Name(k.owner) == Name(owner)
  }

  // docker rm -f <name>: whoever owns the container.
  function RemoveNamed(dk: Docker, owner: string, kind: Kind): Docker {
    dk.(containers := map c | c in dk.containers && !HasName(dk.containers[c], owner, kind) :: dk.containers[c])
  }

  function RunNew(dk: Docker, c: Container): Docker {
    Docker(dk.containers[dk.nextId := c], dk.nextId + 1)
  }

  function RemoveId(dk: Docker, c: Option<nat>): Docker {
    if c.Some? then dk.(containers := dk.containers - {c.value}) else dk
  }

  function SetRunning(dk: Docker, c: Option<nat>, running: bool): Docker {
    if c.Some? && c.value in dk.containers then
      dk.(containers := dk.containers[c.value := dk.containers[c.value].(running := running)])
    else dk
  }

  // The devices `docker run` passes through: the named ones, or every device
  // when none is named and the backend still asks for GPUs.
  function PassedThrough(cfg: Config, r: Record): set<int> {
    if r.gpuDevices != [] then Elements(r.gpuDevices)
    else if r.kind.Inference? || r.gpuFraction > 0 then DeviceIds(cfg.totalGpus)
    else {}
  }

  // -------------------------------------------------------------- control plane

  datatype DeploymentState =
    | DPending | DScheduled | DPulling | DStarting | DReady | DDraining | DSuspended | DFailed | DTerminated

  datatype Report = Report(deployment: string, state: DeploymentState)

  // `nodeId` is "" when the lease names no node; `suspended` says that its status
  // is 'suspended' in any letter case.
  datatype Lease = Lease(deployment: string, workload: string, nodeId: string, suspended: bool)

  // WorkloadRequirements.gpu_count is at least 1 in the protocol.
  type GpuCount = n: nat | n >= 1 witness 1

  datatype Workload = Workload(kind: Kind, gpuCount: GpuCount, noGpuTemplate: bool, requestedMemoryGb: nat)

  datatype WorkloadAnswer = Found(workload: Workload) | Missing | LookupFailed

  datatype DeploymentAnswer = Exists(state: DeploymentState) | NotFound | Unreachable

  // Artifact staging (inference) or volume creation (pod): it works, raises its
  // declared error, or raises something the start handler does not catch.
  datatype Preparation = Prepared | DeclaredError | UnexpectedError

  // Everything the outside world answers while one lease is handled.
  datatype Answers = Answers(
    workload: WorkloadAnswer,
    resumeBusy: set<int>,
    startBusy: set<int>,
    sshReady: bool,
    preparation: Preparation,
    backendStarts: bool,
    containerResumes: bool)

  // The outside world's answers during one reconcile pass. `leases` is None when
  // the lease list cannot be fetched; `answers(i)` serves the i-th own lease.
  datatype PassInput = PassInput(
    leases: Option<seq<Lease>>,
    answers: nat -> Answers,
    deployment: string -> DeploymentAnswer)

  // --------------------------------------------------------------------- state

  datatype State = State(
    store: Store,
    alloc: Allocations,
    docker: Docker,
    log: seq<Report>,
    saves: seq<Store>)

  function Saved(s: State, r: Record): State {
    s.(store := Put(s.store, r), saves := s.saves + [Put(s.store, r)])
  }

  function Removed(s: State, d: string): State {
    s.(store := Drop(s.store, d), saves := s.saves + [Drop(s.store, d)])
  }

  function FreedGpus(s: State, d: string): State {
    s.(alloc := Released(s.alloc, d))
  }

  function Reported(s: State, d: string, state: DeploymentState): State {
    s.(log := s.log + [Report(d, state)])
  }

  // Crashed: an exception escapes from the step.
  datatype Outcome = Done(state: State) | Crashed(state: State)

  // ----------------------------------------------------------- runtime handlers

  function FailRuntime(s: State, r: Record): State {
    Reported(Saved(FreedGpus(s, r.id), r.(status := Failed)), r.id, DFailed)
  }

  // The backend is only asked to stop what the record knows about; the record
  // keeps its old container id.
  function TerminateRuntime(s: State, r: Record, report: bool): State {
    var stops := r.kind.Inference? || r.kind.Pod?;
    var s1 := FreedGpus(s, r.id).(docker := if stops then RemoveId(s.docker, r.container) else s.docker);
    var s2 := Saved(s1, r.(status := Terminated));
    if report then Reported(s2, r.id, DTerminated) else s2
  }

  function SuspendedRecord(r: Record): Record {
    if r.kind.Inference? then r.(status := Suspended, container := None) else r.(status := Suspended)
  }

  function SuspendedDocker(dk: Docker, r: Record): Docker {
    match r.kind
    case Pod => SetRunning(dk, r.container, false)
    case Inference => RemoveId(dk, r.container)
    case _ => dk
  }

  function SuspendRuntime(s: State, r: Record): State {
    var s1 := FreedGpus(s, r.id).(docker := SuspendedDocker(s.docker, r));
    Reported(Saved(s1, SuspendedRecord(r)), r.id, DSuspended)
  }

  function GpusWanted(kind: Kind, w: Workload): nat {
    if kind.Pod? && w.noGpuTemplate then 0 else w.gpuCount
  }

  function Max(a: int, b: int): int {
    if a >= b then a else b
  }

  function Min(a: int, b: int): int {
    if a <= b then a else b
  }

  // Host memory granted to a pod: at most its GPU share, less when it asks for less.
  function MemoryGrant(cfg: Config, gpus: nat, requested: nat): nat {
    var hostGpus := Max(cfg.totalGpus, 1);
    var units := if gpus > 0 then gpus else 1;
    var share := Max(1, cfg.memoryGb * units / hostGpus);
    if requested > 0 then Min(share, requested) else share
  }

  // The record a start handler goes on with once it holds its devices.
  function Equipped(cfg: Config, r: Record, w: Workload, gpus: nat, devices: seq<int>): Record {
    var e := r.(gpuDevices := devices, gpuCount := Some(gpus));
    match r.kind
    case Inference => e.(gpuFraction := gpus)
    case Pod => e.(gpuFraction := gpus, memoryGb := MemoryGrant(cfg, gpus, w.requestedMemoryGb))
    case _ => e
  }

  // The backend's start: stale containers of that name go first, then docker run.
  function StartBackend(cfg: Config, s: State, r: Record, starts: bool): State {
    if r.kind.Vm? then
      if starts then Reported(Saved(s, r.(status := Ready, vm := true)), r.id, DReady)
      else FailRuntime(s, r)
    else
      var s1 := s.(docker := RemoveNamed(s.docker, r.id, r.kind));
      if starts then
        var s2 := s1.(docker := RunNew(s1.docker, Container(r.id, r.kind, PassedThrough(cfg, r), true)));
        Reported(Saved(s2, r.(status := Ready, container := Some(s1.docker.nextId))), r.id, DReady)
      else FailRuntime(s1, r)
  }

  // A start handler after the allocator granted `devices` (s already holds them).
  function Launch(cfg: Config, s: State, r: Record, w: Workload, gpus: nat, devices: seq<int>, a: Answers): Outcome {
    var named := Equipped(cfg, r, w, gpus, devices);
    var preparation := if r.kind.Vm? then Prepared else a.preparation;
    match preparation
    case Prepared =>
      var starting := named.(status := Starting);
      Done(StartBackend(cfg, Saved(s, starting), starting, a.backendStarts))
    case DeclaredError => Done(FailRuntime(s, if r.kind.Inference? then named else r))
    case UnexpectedError => Crashed(s)
  }

  function StartGrant(cfg: Config, s: State, r: Record, w: Workload, a: Answers): Grant {
    TryAllocate(cfg.totalGpus, s.alloc, r.id, GpusWanted(r.kind, w), Foreign(s.alloc, a.startBusy))
  }

  // _start_inference_runtime, _start_pod_runtime and _start_vm_runtime.
  function StartRuntime(cfg: Config, s: State, r: Record, w: Workload, a: Answers): Outcome {
    if r.kind.Pod? && !a.sshReady then Done(FailRuntime(s, r))
    else
      match StartGrant(cfg, s, r, w, a)
      case Refused => Done(FailRuntime(s, r))
      case Granted(devices, after) =>
        Launch(cfg, s.(alloc := after), r, w, GpusWanted(r.kind, w), devices, a)
  }

  function ResumeGpuCount(r: Record): nat {
    var n := if r.gpuCount.Some? then r.gpuCount.value else if r.gpuFraction > 0 then r.gpuFraction else 1;
    if n > 0 then n else 1
  }

  // A pod that ran on devices comes back on those; everything else takes any.
  function ResumeGrant(cfg: Config, s: State, r: Record, a: Answers): Grant {
    if r.kind.Pod? && r.gpuDevices != [] then TryAllocateSpecific(cfg.totalGpus, s.alloc, r.id, r.gpuDevices)
    else TryAllocate(cfg.totalGpus, s.alloc, r.id, ResumeGpuCount(r), Foreign(s.alloc, a.resumeBusy))
  }

  // docker start fails on a container that is gone.
  predicate PodResumes(dk: Docker, r: Record, a: Answers) {
    a.containerResumes && (r.container.Some? ==> r.container.value in dk.containers)
  }

  // `s` already holds the re-acquired devices.
  function ResumePod(s: State, r: Record, devices: seq<int>, a: Answers): State {
    var r1 := r.(gpuDevices := devices, gpuCount := Some(ResumeGpuCount(r)));
    if PodResumes(s.docker, r, a) then
      var s1 := s.(docker := SetRunning(s.docker, r.container, true));
      Reported(Saved(s1, r1.(status := Ready)), r.id, DReady)
    else
      Saved(FreedGpus(s, r.id), r1.(status := Suspended))
  }

  // Inference and VM runtimes give the placeholder devices back and start afresh.
  function Redispatch(cfg: Config, s: State, r: Record, a: Answers): Outcome {
    if !a.workload.Found? then Done(s)
    else
      var r1 := r.(status := Accepted);
      var s1 := Saved(s, r1);
      if r.kind.Inference? || r.kind.Vm? then StartRuntime(cfg, s1, r1, a.workload.workload, a) else Done(s1)
  }

  function ResumeRuntime(cfg: Config, s: State, r: Record, a: Answers): Outcome {
    match ResumeGrant(cfg, s, r, a)
    case Refused => Done(s)
    case Granted(devices, after) =>
      var s1 := s.(alloc := after);
      if r.kind.Pod? then Done(ResumePod(s1, r, devices, a))
      else Redispatch(cfg, FreedGpus(s1, r.id), r, a)
  }

  function FreshRecord(lease: Lease, w: Workload): Record {
    Record(lease.deployment, lease.workload, w.kind, Accepted, [], None, 0, 0, None, false)
  }

  // _reconcile_workload
  function Dispatch(cfg: Config, s: State, lease: Lease, a: Answers): Outcome {
    match a.workload
    case LookupFailed => Crashed(s)
    case Missing => Done(Reported(s, lease.deployment, DFailed))
    case Found(w) =>
      var r := FreshRecord(lease, w);
      var s1 := Saved(s, r);
      if w.kind.Unsupported? then Done(FailRuntime(s1, r)) else StartRuntime(cfg, s1, r, w, a)
  }

  // The dispatch with its catch-all handler, which reports the failure.
  function DispatchGuarded(cfg: Config, s: State, lease: Lease, a: Answers): State {
    match Dispatch(cfg, s, lease, a)
    case Done(s1) => s1
    case Crashed(s1) => Reported(s1, lease.deployment, DFailed)
  }

  // One iteration of the lease loop. Only a resume lets an exception escape.
  function HandleLease(cfg: Config, s: State, lease: Lease, a: Answers): Outcome {
    match Get(s.store, lease.deployment)
    case None => if lease.suspended then Done(s) else Done(DispatchGuarded(cfg, s, lease, a))
    case Some(r) =>
      if lease.suspended then
        if r.status.Ready? || r.status.Starting? then Done(SuspendRuntime(s, r)) else Done(s)
      else if r.status.Suspended? then ResumeRuntime(cfg, s, r, a)
      else if r.status.Accepted? || r.status.Starting? then
        Done(DispatchGuarded(cfg, Removed(TerminateRuntime(s, r, false), lease.deployment), lease, a))
      else Done(s)
  }

  // --------------------------------------------------------------- one pass

  function Leases(inp: PassInput): seq<Lease> {
    if inp.leases.Some? then inp.leases.value else []
  }

  predicate IsMine(cfg: Config, lease: Lease) {
    lease.nodeId == "" || lease.nodeId == cfg.nodeId
  }

  function Mine(cfg: Config, leases: seq<Lease>): (mine: seq<Lease>)
    ensures forall l :: l in mine <==> l in leases && IsMine(cfg, l)
  {
    if leases == [] then []
    else
      var rest := Mine(cfg, leases[1..]);
      if IsMine(cfg, leases[0]) then [leases[0]] + rest else rest
  }

  function Deployments(leases: seq<Lease>): set<string> {
    set l | l in leases :: l.deployment
  }

  function LeaseLoop(cfg: Config, s: State, mine: seq<Lease>, answers: nat -> Answers, i: nat): Outcome
    requires i <= |mine|
    decreases |mine| - i
  {
    if i == |mine| then Done(s)
    else
      match HandleLease(cfg, s, mine[i], answers(i))
      case Done(s1) => LeaseLoop(cfg, s1, mine, answers, i + 1)
      case Crashed(s1) => Crashed(s1)
  }

  // One iteration of the cleanup loop over the records present when it starts.
  function CleanupOne(s: State, d: string, active: set<string>, fleet: set<string>, dep: DeploymentAnswer): State {
    match Get(s.store, d)
    case None => s
    case Some(r) =>
      if d in active || r.status.Terminated? then s
      else if r.status.Suspended? then
        if dep == Exists(DTerminated) then Removed(TerminateRuntime(s, r, true), d) else s
      else TerminateRuntime(s, r, d !in fleet)
  }

  function CleanupLoop(s: State, ids: seq<string>, active: set<string>, fleet: set<string>,
                       dep: string -> DeploymentAnswer, i: nat): State
    requires i <= |ids|
    decreases |ids| - i
  {
    if i == |ids| then s
    else CleanupLoop(CleanupOne(s, ids[i], active, fleet, dep(ids[i])), ids, active, fleet, dep, i + 1)
  }

  function Cleanup(cfg: Config, s: State, inp: PassInput): State {
    var all := Leases(inp);
    CleanupLoop(s, s.store.order, Deployments(Mine(cfg, all)), Deployments(all), inp.deployment, 0)
  }

  // _reconcile_once_locked; an exception escaping from a resume skips the cleanup.
  function Reconcile(cfg: Config, s: State, inp: PassInput): State {
    match LeaseLoop(cfg, s, Mine(cfg, Leases(inp)), inp.answers, 0)
    case Done(s1) => Cleanup(cfg, s1, inp)
    case Crashed(s1) => s1
  }

  // ------------------------------------------------------- recovery and restart

  predicate KeptByRecovery(state: DeploymentState) {
    state in {DReady, DStarting, DScheduled, DPulling, DDraining, DSuspended}
  }

  function RecoverOne(s: State, d: string, dep: DeploymentAnswer): State {
    match Get(s.store, d)
    case None => s
    case Some(r) =>
      if r.status.Terminated? || r.status.Failed? then s
      else
        match dep
        case Unreachable => s
        case NotFound => TerminateRuntime(s, r, false)
        case Exists(state) =>
          if KeptByRecovery(state) then s
          else TerminateRuntime(s, r, state.DTerminated? || state.DFailed?)
  }

  function RecoverLoop(s: State, ids: seq<string>, dep: string -> DeploymentAnswer, i: nat): State
    requires i <= |ids|
    decreases |ids| - i
  {
    if i == |ids| then s
    else RecoverLoop(RecoverOne(s, ids[i], dep(ids[i])), ids, dep, i + 1)
  }

  // _recover_runtime_state_locked
  function Recover(s: State, dep: string -> DeploymentAnswer): State {
    RecoverLoop(s, s.store.order, dep, 0)
  }

  // terminate_deployment
  function UserTerminate(s: State, d: string): State {
    match Get(s.store, d)
    case None => s
    case Some(r) => TerminateRuntime(s, r, true)
  }

  predicate Active(status: Status) {
    status.Accepted? || status.Preparing? || status.Starting? || status.Ready?
  }

  function RehydrateLoop(store: Store, m: Allocations, i: nat): Allocations
    requires i <= |store.order|
    decreases |store.order| - i
  {
    if i == |store.order| then m
    else
      var d := store.order[i];
      var m1 := match Get(store, d)
        case None => m
        case Some(r) => if Active(r.status) && r.gpuDevices != [] then m[d := Elements(r.gpuDevices)] else m;
      RehydrateLoop(store, m1, i + 1)
  }

  // _rehydrate_gpu_allocator on a fresh allocator
  function Rehydrated(store: Store): Allocations {
    RehydrateLoop(store, map[], 0)
  }

  // A new process that loads `disk`; containers live on under the docker daemon.
  function Restart(s: State, disk: Store): State {
    s.(store := disk, alloc := Rehydrated(disk))
  }

  // ---------------------------------------------------------- advertised capacity

  // len(devices) or int(gpu_count or 1)
  function ReservedBy(r: Record): nat {
    if !Active(r.status) then 0
    else if r.gpuDevices != [] then |r.gpuDevices|
    else if r.gpuCount.Some? && r.gpuCount.value > 0 then r.gpuCount.value
    else 1
  }

  function ReservedLoop(rs: seq<Record>): nat {
    if rs == [] then 0 else ReservedLoop(rs[..|rs| - 1]) + ReservedBy(rs[|rs| - 1])
  }

  function Records(store: Store): seq<Record>
    requires WellFormed(store)
  {
    seq(|store.order|, i requires 0 <= i < |store.order| =>
      assert store.order[i] in store.order; store.runtimes[store.order[i]])
  }

  function AvailableGpus(cfg: Config, s: State, busy: set<int>): nat
    requires WellFormed(s.store)
  {
    Max(0, cfg.totalGpus - ReservedLoop(Records(s.store)) - |Foreign(s.alloc, busy)|)
  }
}
