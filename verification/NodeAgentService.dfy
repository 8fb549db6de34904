/** The service object (application/services.py): its methods change the state in
    place, each proved to compute what NodeModel says. */
module NodeAgent {
  import opened Common
  import opened GpuAllocation
  import opened Repository
  import opened NodeModel
  import opened LeaseFilter
  import opened Steps

  // A finished step, or an exception on its way out.
  ghost function Ended(s: State, crashed: bool): Outcome {
    if crashed then Crashed(s) else Done(s)
  }

  class NodeAgentService {
    const cfg: Config
    const repository: NodeAgentRepository
    const gpuAllocator: GpuAllocator
    var reconcileLock: bool
    // The docker daemon and the control plane's inbox, as far as this agent acts on them.
    var docker: Docker
    var log: seq<Report>

    ghost predicate Valid()
      reads this, repository
    {
      repository.Valid() && gpuAllocator.totalGpus == cfg.totalGpus
    }

    ghost function Now(): State
      reads this, repository, gpuAllocator
    {
      State(repository.Contents(), gpuAllocator.allocations, docker, log, repository.saves)
    }

    // A new process: loads the state file and rebuilds the allocator from it.
    constructor (cfg: Config, persisted: Store, docker: Docker, log: seq<Report>)
      requires WellFormed(persisted)
      ensures Valid() && !reconcileLock
      ensures this.cfg == cfg && fresh(repository) && fresh(gpuAllocator)
      ensures Now() == Restart(State(persisted, map[], docker, log, []), persisted)
      ensures Now() == State(persisted, Rehydrated(persisted), docker, log, [])
    {
      this.cfg := cfg;
      repository := new NodeAgentRepository(persisted);
      gpuAllocator := new GpuAllocator(cfg.totalGpus);
      reconcileLock := false;
      this.docker, this.log := docker, log;
      new;
      RehydrateGpuAllocator();
    }

    method RehydrateGpuAllocator()
      requires Valid()
      modifies gpuAllocator
      ensures gpuAllocator.allocations == RehydrateLoop(repository.Contents(), old(gpuAllocator.allocations), 0)
    {
      var runtimes := repository.SnapshotRuntimes();
      for i := 0 to |runtimes|
        invariant RehydrateLoop(repository.Contents(), gpuAllocator.allocations, i)
               == RehydrateLoop(repository.Contents(), old(gpuAllocator.allocations), 0)
      {
        var rt := runtimes[i];
        if Active(rt.status) && rt.gpuDevices != [] {
          gpuAllocator.Rehydrate(rt.id, rt.gpuDevices);
        }
      }
    }

    method ForeignBusyDevices(busy: set<int>) returns (foreign: set<int>)
      ensures foreign == Foreign(gpuAllocator.allocations, busy)
    {
      var ours := gpuAllocator.AllocatedDevices();
      foreign := busy - ours;
    }

    method UpdateDeploymentStatus(d: string, state: DeploymentState)
      modifies this`log
      ensures Now() == Reported(old(Now()), d, state)
    {
      log := log + [Report(d, state)];
    }

    method BuildCapacityUpdate(busy: set<int>) returns (available: nat)
      requires Valid()
      ensures available == AvailableGpus(cfg, Now(), busy)
    {
      var reserved := 0;
      var runtimes := repository.SnapshotRuntimes();
      assert runtimes == Records(repository.Contents());
      for i := 0 to |runtimes|
        invariant reserved == ReservedLoop(runtimes[..i])
      {
        var rt := runtimes[i];
        if Active(rt.status) {
          reserved := reserved +
            (if rt.gpuDevices != [] then |rt.gpuDevices|
             else if rt.gpuCount.Some? && rt.gpuCount.value > 0 then rt.gpuCount.value
             else 1);
        }
        assert runtimes[..i + 1][..i] == runtimes[..i];
      }
      assert runtimes[..|runtimes|] == runtimes;
      var foreign := ForeignBusyDevices(busy);
      available := Max(0, cfg.totalGpus - reserved - |foreign|);
    }

    // ------------------------------------------------------- lifecycle helpers

    method FailRuntime(r: Record)
      requires Valid()
      modifies this`log, repository, gpuAllocator
      ensures Valid() && Now() == NodeModel.FailRuntime(old(Now()), r)
    {
      var _ := gpuAllocator.Release(r.id);
      repository.UpsertRuntime(r.(status := Failed));
      UpdateDeploymentStatus(r.id, DFailed);
    }

    method TerminateRuntime(r: Record, report: bool)
      requires Valid()
      modifies this`log, this`docker, repository, gpuAllocator
      ensures Valid() && Now() == NodeModel.TerminateRuntime(old(Now()), r, report)
    {
      var _ := gpuAllocator.Release(r.id);
      if (r.kind.Inference? || r.kind.Pod?) && r.container.Some? {
        docker := RemoveId(docker, r.container);
      }
      repository.UpsertRuntime(r.(status := Terminated));
      if report {
        UpdateDeploymentStatus(r.id, DTerminated);
      }
    }

    method SuspendRuntime(r: Record)
      requires Valid()
      modifies this`log, this`docker, repository, gpuAllocator
      ensures Valid() && Now() == NodeModel.SuspendRuntime(old(Now()), r)
    {
      var _ := gpuAllocator.Release(r.id);
      var rt := r;
      if rt.kind.Pod? {
        docker := SetRunning(docker, rt.container, false);
      } else if rt.kind.Inference? {
        if rt.container.Some? {
          docker := RemoveId(docker, rt.container);
          rt := rt.(container := None);
        }
      }
      rt := rt.(status := Suspended);
      repository.UpsertRuntime(rt);
      UpdateDeploymentStatus(rt.id, DSuspended);
    }

    // --------------------------------------------------------- start handlers

    // docker run for a record that names its devices.
    method RunContainer(r: Record, starts: bool) returns (id: Option<nat>)
      modifies this`docker
      ensures var cleaned := RemoveNamed(old(docker), r.id, r.kind);
              if starts then
                && id == Some(cleaned.nextId)
                && docker == RunNew(cleaned, Container(r.id, r.kind, PassedThrough(cfg, r), true))
              else id == None && docker == cleaned
      ensures starts ==>
                var devices := docker.containers[old(docker.nextId)].devices;
                if r.gpuDevices != [] then devices == Elements(r.gpuDevices)
                else if r.kind.Inference? || r.gpuFraction > 0 then devices == Range(0, cfg.totalGpus)
                else devices == {}
    {
      docker := RemoveNamed(docker, r.id, r.kind);
      id := None;
      if starts {
        id := Some(docker.nextId);
        docker := RunNew(docker, Container(r.id, r.kind, PassedThrough(cfg, r), true));
      }
    }

    // The tail of the inference and pod handlers: the record is saved as starting,
    // devices named, before the backend is asked to start.
    method LaunchContainer(rt: Record, starts: bool)
      requires Valid() && !rt.kind.Vm?
      modifies this`log, this`docker, repository, gpuAllocator
      ensures Valid() && Now() == StartBackend(cfg, Saved(old(Now()), rt), rt, starts)
    {
      repository.UpsertRuntime(rt);
      var container := RunContainer(rt, starts);
      if container.None? {
        FailRuntime(rt);
        return;
      }
      repository.UpsertRuntime(rt.(status := Ready, container := container));
      UpdateDeploymentStatus(rt.id, DReady);
    }

    method LaunchVm(r: Record, w: Workload, devices: seq<int>, a: Answers)
      requires Valid() && r.kind.Vm?
      modifies this`log, repository, gpuAllocator
      ensures Valid() && Done(Now()) == Launch(cfg, old(Now()), r, w, w.gpuCount, devices, a)
    {
      var rt := r.(status := Starting, gpuDevices := devices, gpuCount := Some(w.gpuCount));
      repository.UpsertRuntime(rt);
      if !a.backendStarts {
        FailRuntime(rt);
        return;
      }
      repository.UpsertRuntime(rt.(status := Ready, vm := true));
      UpdateDeploymentStatus(rt.id, DReady);
    }

    // The request every start handler begins with: devices no stranger is using.
    method AllocateForStart(d: string, gpuCount: nat, busy: set<int>) returns (devices: Option<seq<int>>)
      requires Valid()
      modifies gpuAllocator
      ensures Valid()
      ensures var s := old(Now());
              var g := TryAllocate(cfg.totalGpus, s.alloc, d, gpuCount, Foreign(s.alloc, busy));
              if g.Refused? then devices.None? && Now() == s
              else devices == Some(g.devices) && Now() == s.(alloc := g.after)
    {
      var foreign := ForeignBusyDevices(busy);
      devices := gpuAllocator.Allocate(d, gpuCount, foreign);
    }

    method StartInferenceRuntime(r: Record, w: Workload, a: Answers) returns (crashed: bool)
      requires Valid() && r.kind.Inference?
      modifies this`log, this`docker, repository, gpuAllocator
      ensures Valid() && Ended(Now(), crashed) == StartRuntime(cfg, old(Now()), r, w, a)
    {
      crashed := false;
      var devices := AllocateForStart(r.id, w.gpuCount, a.startBusy);
      if devices.None? {
        FailRuntime(r);
        return;
      }
      assert StartRuntime(cfg, old(Now()), r, w, a) == Launch(cfg, Now(), r, w, w.gpuCount, devices.value, a);
      crashed := LaunchInference(r, w, devices.value, a);
    }

    method LaunchInference(r: Record, w: Workload, devices: seq<int>, a: Answers) returns (crashed: bool)
      requires Valid() && r.kind.Inference?
      modifies this`log, this`docker, repository, gpuAllocator
      ensures Valid() && Ended(Now(), crashed) == Launch(cfg, old(Now()), r, w, w.gpuCount, devices, a)
    {
      crashed := a.preparation.UnexpectedError?;
      var rt := r.(gpuDevices := devices, gpuCount := Some(w.gpuCount), gpuFraction := w.gpuCount);
      if a.preparation.DeclaredError? {
        FailRuntime(rt);
      } else if a.preparation.Prepared? {
        LaunchContainer(rt.(status := Starting), a.backendStarts);
      }
    }

    method StartPodRuntime(r: Record, w: Workload, a: Answers) returns (crashed: bool)
      requires Valid() && r.kind.Pod?
      modifies this`log, this`docker, repository, gpuAllocator
      ensures Valid() && Ended(Now(), crashed) == StartRuntime(cfg, old(Now()), r, w, a)
    {
      crashed := false;
      if !a.sshReady {
        FailRuntime(r);
        return;
      }
      var gpuCount: nat := w.gpuCount;
      if w.noGpuTemplate {
        gpuCount := 0;
      }
      var devices := AllocateForStart(r.id, gpuCount, a.startBusy);
      if devices.None? {
        FailRuntime(r);
        return;
      }
      crashed := LaunchPod(r, w, gpuCount, devices.value, a);
    }

    method LaunchPod(r: Record, w: Workload, gpuCount: nat, devices: seq<int>, a: Answers) returns (crashed: bool)
      requires Valid() && r.kind.Pod?
      modifies this`log, this`docker, repository, gpuAllocator
      ensures Valid() && Ended(Now(), crashed) == Launch(cfg, old(Now()), r, w, gpuCount, devices, a)
    {
      crashed := a.preparation.UnexpectedError?;
      if a.preparation.DeclaredError? {
        FailRuntime(r);
      } else if a.preparation.Prepared? {
        var rt := r.(status := Starting, gpuDevices := devices, gpuCount := Some(gpuCount), gpuFraction := gpuCount,
                     memoryGb := MemoryGrant(cfg, gpuCount, w.requestedMemoryGb));
        LaunchContainer(rt, a.backendStarts);
      }
    }

    method StartVmRuntime(r: Record, w: Workload, a: Answers) returns (crashed: bool)
      requires Valid() && r.kind.Vm?
      modifies this`log, repository, gpuAllocator
      ensures Valid() && Ended(Now(), crashed) == StartRuntime(cfg, old(Now()), r, w, a)
    {
      crashed := false;
      var devices := AllocateForStart(r.id, w.gpuCount, a.startBusy);
      if devices.None? {
        FailRuntime(r);
        return;
      }
      LaunchVm(r, w, devices.value, a);
    }

    method ReconcileWorkload(lease: Lease, a: Answers) returns (crashed: bool)
      requires Valid()
      modifies this`log, this`docker, repository, gpuAllocator
      ensures Valid() && Ended(Now(), crashed) == Dispatch(cfg, old(Now()), lease, a)
    {
      crashed := false;
      match a.workload
      case LookupFailed =>
        crashed := true;
      case Missing =>
        UpdateDeploymentStatus(lease.deployment, DFailed);
      case Found(w) =>
        var r := FreshRecord(lease, w);
        repository.UpsertRuntime(r);
        match w.kind
        case Inference => crashed := StartInferenceRuntime(r, w, a);
        case Pod => crashed := StartPodRuntime(r, w, a);
        case Vm => crashed := StartVmRuntime(r, w, a);
        case Unsupported => FailRuntime(r);
    }

    // ------------------------------------------------------------------ resume

    method ResumeRuntime(r: Record, a: Answers) returns (crashed: bool)
      requires Valid()
      modifies this`log, this`docker, repository, gpuAllocator
      ensures Valid() && Ended(Now(), crashed) == NodeModel.ResumeRuntime(cfg, old(Now()), r, a)
    {
      crashed := false;
      var gpuCount := ResumeGpuCount(r);
      var devices: Option<seq<int>>;
      if r.kind.Pod? && r.gpuDevices != [] {
        devices := gpuAllocator.AllocateSpecific(r.id, r.gpuDevices);
      } else {
        var foreign := ForeignBusyDevices(a.resumeBusy);
        devices := gpuAllocator.Allocate(r.id, gpuCount, foreign);
      }
      if devices.None? {
        return;
      }
      if r.kind.Pod? {
        FinishPodResume(r, devices.value, a);
      } else {
        var _ := gpuAllocator.Release(r.id);
        crashed := RedispatchRuntime(r, a);
      }
    }

    method FinishPodResume(r: Record, devices: seq<int>, a: Answers)
      requires Valid() && r.kind.Pod?
      modifies this`log, this`docker, repository, gpuAllocator
      ensures Valid() && Now() == ResumePod(old(Now()), r, devices, a)
    {
      var rt := r.(gpuDevices := devices, gpuCount := Some(ResumeGpuCount(r)));
      if PodResumes(docker, r, a) {
        docker := SetRunning(docker, r.container, true);
        repository.UpsertRuntime(rt.(status := Ready));
        UpdateDeploymentStatus(rt.id, DReady);
      } else {
        var _ := gpuAllocator.Release(rt.id);
        repository.UpsertRuntime(rt.(status := Suspended));
      }
    }

    method RedispatchRuntime(r: Record, a: Answers) returns (crashed: bool)
      requires Valid()
      modifies this`log, this`docker, repository, gpuAllocator
      ensures Valid() && Ended(Now(), crashed) == Redispatch(cfg, old(Now()), r, a)
    {
      crashed := false;
      if !a.workload.Found? {
        return;
      }
      var rt := r.(status := Accepted);
      repository.UpsertRuntime(rt);
      if rt.kind.Inference? {
        crashed := StartInferenceRuntime(rt, a.workload.workload, a);
      } else if rt.kind.Vm? {
        crashed := StartVmRuntime(rt, a.workload.workload, a);
      }
    }

    // --------------------------------------------------------------- reconcile

    // The body of the lease loop; `crashed` means the exception leaves the pass.
    method HandleLease(lease: Lease, a: Answers) returns (crashed: bool)
      requires Valid()
      modifies this`log, this`docker, repository, gpuAllocator
      ensures Valid() && Ended(Now(), crashed) == NodeModel.HandleLease(cfg, old(Now()), lease, a)
    {
      crashed := false;
      var existing := repository.GetRuntime(lease.deployment);
      if lease.suspended {
        if existing.Some? && (existing.value.status.Ready? || existing.value.status.Starting?) {
          SuspendRuntime(existing.value);
        }
        return;
      }
      if existing.Some? && existing.value.status.Suspended? {
        crashed := ResumeRuntime(existing.value, a);
        return;
      }
      if existing.Some? {
        if !(existing.value.status.Accepted? || existing.value.status.Starting?) {
          return;
        }
        TerminateRuntime(existing.value, false);
        repository.RemoveRuntime(lease.deployment);
      }
      var failed := ReconcileWorkload(lease, a);
      if failed {
        UpdateDeploymentStatus(lease.deployment, DFailed);
      }
    }

    // Exactly the leases of this node and those that name none, in order.
    method OwnLeases(all: seq<Lease>) returns (leases: seq<Lease>)
      ensures leases == Mine(cfg, all)
      ensures exists at :: Selects(cfg.nodeId, all, leases, at)
    {
      leases := [];
      for i := 0 to |all|
        invariant leases + Mine(cfg, all[i..]) == Mine(cfg, all)
      {
        var lease := all[i];
        assert all[i..][0] == lease && all[i..][1..] == all[i + 1..];
        if lease.nodeId != "" && lease.nodeId != cfg.nodeId {
        } else {
          leases := leases + [lease];
        }
      }
      assert all[|all|..] == [];
      ghost var at := MineIsExact(cfg, all);
    }

    // The cleanup loop's body, on the record of the snapshot.
    method CleanUp(r: Record, active: set<string>, fleet: set<string>, deployment: DeploymentAnswer)
      requires Valid() && Get(repository.Contents(), r.id) == Some(r)
      modifies this`log, this`docker, repository, gpuAllocator
      ensures Valid() && Now() == CleanupOne(old(Now()), r.id, active, fleet, deployment)
    {
      if r.id in active || r.status.Terminated? {
        return;
      }
      if r.status.Suspended? {
        if deployment == Exists(DTerminated) {
          TerminateRuntime(r, true);
          repository.RemoveRuntime(r.id);
        }
        return;
      }
      TerminateRuntime(r, r.id !in fleet);
    }

    method CleanUpAll(active: set<string>, fleet: set<string>, deployment: string -> DeploymentAnswer)
      requires Valid()
      modifies this`log, this`docker, repository, gpuAllocator
      ensures Valid()
      ensures Now() == CleanupLoop(old(Now()), old(repository.order), active, fleet, deployment, 0)
    {
      var snapshot := repository.SnapshotRuntimes();
      ghost var ids := repository.order;
      for i := 0 to |snapshot|
        invariant Valid() && |ids| == |snapshot|
        invariant forall j | i <= j < |ids| :: snapshot[j].id == ids[j] && Get(Now().store, ids[j]) == Some(snapshot[j])
        invariant CleanupLoop(Now(), ids, active, fleet, deployment, i)
               == CleanupLoop(old(Now()), ids, active, fleet, deployment, 0)
      {
        var r := snapshot[i];
        CleanupOneServes(Now(), r.id, active, fleet, deployment(r.id));
        CleanUp(r, active, fleet, deployment(r.id));
      }
    }

    method HandleLeases(leases: seq<Lease>, answers: nat -> Answers) returns (crashed: bool)
      requires Valid()
      modifies this`log, this`docker, repository, gpuAllocator
      ensures Valid() && Ended(Now(), crashed) == LeaseLoop(cfg, old(Now()), leases, answers, 0)
    {
      crashed := false;
      var i := 0;
      while i < |leases|
        invariant Valid() && i <= |leases| && !crashed
        invariant LeaseLoop(cfg, Now(), leases, answers, i) == LeaseLoop(cfg, old(Now()), leases, answers, 0)
      {
        crashed := HandleLease(leases[i], answers(i));
        if crashed {
          return;
        }
        i := i + 1;
      }
    }

    method ReconcileOnceLocked(inp: PassInput)
      requires Valid()
      modifies this`log, this`docker, repository, gpuAllocator
      ensures Valid() && Now() == Reconcile(cfg, old(Now()), inp)
    {
      var all := if inp.leases.Some? then inp.leases.value else [];
      var leases := OwnLeases(all);
      var crashed := HandleLeases(leases, inp.answers);
      if crashed {
        return;
      }
      CleanUpAll(Deployments(leases), Deployments(all), inp.deployment);
    }

    // A trigger that finds the lock taken changes nothing at all.
    method ReconcileOnce(inp: PassInput)
      requires Valid()
      modifies this, repository, gpuAllocator
      ensures Valid() && reconcileLock == old(reconcileLock)
      ensures Now() == if old(reconcileLock) then old(Now()) else Reconcile(cfg, old(Now()), inp)
    {
      if reconcileLock {
        return;
      }
      reconcileLock := true;
      ReconcileOnceLocked(inp);
      reconcileLock := false;
    }

    // ---------------------------------------------------------------- recovery

    method RecoverOne(r: Record, deployment: DeploymentAnswer)
      requires Valid() && Get(repository.Contents(), r.id) == Some(r)
      modifies this`log, this`docker, repository, gpuAllocator
      ensures Valid() && Now() == NodeModel.RecoverOne(old(Now()), r.id, deployment)
    {
      if r.status.Terminated? || r.status.Failed? {
        return;
      }
      match deployment
      case Unreachable =>
      case NotFound => TerminateRuntime(r, false);
      case Exists(state) =>
        if !KeptByRecovery(state) {
          TerminateRuntime(r, state.DTerminated? || state.DFailed?);
        }
    }

    method RecoverRuntimeStateLocked(deployment: string -> DeploymentAnswer)
      requires Valid()
      modifies this`log, this`docker, repository, gpuAllocator
      ensures Valid() && Now() == Recover(old(Now()), deployment)
    {
      var snapshot := repository.SnapshotRuntimes();
      ghost var ids := repository.order;
      for i := 0 to |snapshot|
        invariant Valid() && |ids| == |snapshot|
        invariant forall j | i <= j < |ids| :: snapshot[j].id == ids[j] && Get(Now().store, ids[j]) == Some(snapshot[j])
        invariant RecoverLoop(Now(), ids, deployment, i) == RecoverLoop(old(Now()), ids, deployment, 0)
      {
        var r := snapshot[i];
        RecoverOneServes(Now(), r.id, deployment(r.id));
        RecoverOne(r, deployment(r.id));
      }
    }

    method RecoverRuntimeState(deployment: string -> DeploymentAnswer) returns (busy: bool)
      requires Valid()
      modifies this, repository, gpuAllocator
      ensures Valid() && reconcileLock == old(reconcileLock) && busy == old(reconcileLock)
      ensures Now() == if busy then old(Now()) else Recover(old(Now()), deployment)
    {
      busy := reconcileLock;
      if busy {
        return;
      }
      reconcileLock := true;
      RecoverRuntimeStateLocked(deployment);
      reconcileLock := false;
    }

    method TerminateDeployment(d: string)
      requires Valid()
      modifies this`log, this`docker, repository, gpuAllocator
      ensures Valid()
      ensures Now() == UserTerminate(old(Now()), d)
    {
      var r := repository.GetRuntime(d);
      if r.Some? {
        TerminateRuntime(r.value, true);
      }
    }
  }
}
