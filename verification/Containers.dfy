/** Containers on the host: each belongs to a record that knows it, runs only while
    that is ready, and is pinned to devices its deployment holds. */
module Containers {
  import opened Common
  import opened GpuAllocation
  import opened Repository
  import opened NodeModel
  import opened Loops
  import opened Exclusivity

  ghost predicate ContainerOk(s: State, c: nat)
    requires c in s.docker.containers
  {
    var k := s.docker.containers[c];
    && (k.kind.Pod? || k.kind.Inference?)
    && Get(s.store, k.owner).Some?
    && var r := s.store.runtimes[k.owner];
    && r.container == Some(c) && r.kind == k.kind
    && (r.status.Ready? || (r.status.Suspended? && r.kind.Pod?))
    && (k.running ==> r.status.Ready?)
    && k.devices <= Devices(r)
  }

  // A record's container id is its own, and only pods keep theirs while suspended.
  ghost predicate IdOk(s: State, d: string) {
    match Get(s.store, d)
    case None => true
    case Some(r) =>
      r.container.Some? ==>
        && !(r.status.Accepted? || r.status.Preparing? || r.status.Starting?)
        && r.container.value < s.docker.nextId
        && (r.container.value in s.docker.containers ==> s.docker.containers[r.container.value].owner == d)
        && (r.status.Suspended? ==> r.kind.Pod?) && !r.kind.Vm?
  }

  ghost predicate NoContainer(dk: Docker, d: string) {
    forall c | c in dk.containers :: dk.containers[c].owner != d
  }

  ghost predicate DockerBut(s: State, d: string) {
    && (forall c | c in s.docker.containers :: c < s.docker.nextId)
    && (forall c | c in s.docker.containers && s.docker.containers[c].owner != d :: ContainerOk(s, c))
    && (forall e | e != d :: IdOk(s, e))
  }

  ghost predicate DockerOk(s: State) {
    && (forall c | c in s.docker.containers :: c < s.docker.nextId && ContainerOk(s, c))
    && (forall d :: IdOk(s, d))
  }

  // A step for `d` leaves every other record alone, and everybody else's containers as
  // they are unless it removes them.
  ghost predicate OnlyTouches(s: State, s': State, d: string) {
    && (forall e | e != d :: Get(s'.store, e) == Get(s.store, e))
    && s.docker.nextId <= s'.docker.nextId
    && (forall c | c in s'.docker.containers :: c < s'.docker.nextId)
    && (forall c | c in s.docker.containers && c in s'.docker.containers && s.docker.containers[c].owner != d ::
          s'.docker.containers[c] == s.docker.containers[c])
    && (forall c | c in s'.docker.containers && s'.docker.containers[c].owner != d ::
          Lookup(s.docker.containers, c) == Some(s'.docker.containers[c]))
    && (forall c | c in s'.docker.containers && c < s.docker.nextId :: c in s.docker.containers)
  }

  lemma TouchKeepsOthers(s: State, s': State, d: string)
    requires DockerBut(s, d) && OnlyTouches(s, s', d)
    ensures DockerBut(s', d)
  {
    forall c | c in s'.docker.containers && s'.docker.containers[c].owner != d ensures ContainerOk(s', c) {
      assert Lookup(s.docker.containers, c) == Some(s'.docker.containers[c]);
      assert ContainerOk(s, c);
    }
    forall e | e != d ensures IdOk(s', e) {
      assert IdOk(s, e);
      if Get(s'.store, e).Some? && Get(s'.store, e).value.container.Some? {
        var c := Get(s'.store, e).value.container.value;
        if c in s'.docker.containers {
          assert c in s.docker.containers && s.docker.containers[c].owner == e;
        }
      }
    }
  }

  lemma DockerCompleted(s: State, d: string)
    requires DockerBut(s, d) && IdOk(s, d)
    requires forall c | c in s.docker.containers && s.docker.containers[c].owner == d :: ContainerOk(s, c)
    ensures DockerOk(s)
  {}

  // ------------------------------------------------------------------ handlers

  // `r` may become the record of `d`: its container id is no other deployment's.
  ghost predicate OwnsId(s: State, r: Record) {
    r.container.Some? ==>
      && !r.kind.Vm? && r.container.value < s.docker.nextId
      && (r.container.value in s.docker.containers ==> s.docker.containers[r.container.value].owner == r.id)
  }

  lemma FailKeepsDocker(s: State, r: Record)
    requires DockerBut(s, r.id) && NoContainer(s.docker, r.id) && OwnsId(s, r)
    ensures DockerOk(FailRuntime(s, r))
  {
    TouchKeepsOthers(s, FailRuntime(s, r), r.id);
    DockerCompleted(FailRuntime(s, r), r.id);
  }

  lemma OwnContainerIsRecorded(s: State, r: Record)
    requires DockerOk(s) && Get(s.store, r.id) == Some(r)
    ensures OwnsId(s, r) && IdOk(s, r.id)
    ensures forall c | c in s.docker.containers && s.docker.containers[c].owner == r.id ::
              r.container == Some(c) && ContainerOk(s, c)
  {
    assert IdOk(s, r.id);
    forall c | c in s.docker.containers && s.docker.containers[c].owner == r.id
      ensures r.container == Some(c) && ContainerOk(s, c)
    {
      assert ContainerOk(s, c);
    }
  }

  lemma TerminateTouches(s: State, r: Record, report: bool)
    requires OwnsId(s, r) && forall c | c in s.docker.containers :: c < s.docker.nextId
    ensures OnlyTouches(s, TerminateRuntime(s, r, report), r.id)
  {}

  lemma TerminateKeepsDocker(s: State, r: Record, report: bool)
    requires DockerOk(s) && Get(s.store, r.id) == Some(r)
    ensures DockerOk(TerminateRuntime(s, r, report))
    ensures NoContainer(TerminateRuntime(s, r, report).docker, r.id)
  {
    var s' := TerminateRuntime(s, r, report);
    OwnContainerIsRecorded(s, r);
    TerminateTouches(s, r, report);
    TouchKeepsOthers(s, s', r.id);
    DockerCompleted(s', r.id);
  }

  lemma SuspendKeepsDocker(s: State, r: Record)
    requires DockerOk(s) && Get(s.store, r.id) == Some(r) && Holding(r.status) && !r.kind.Unsupported?
    ensures DockerOk(SuspendRuntime(s, r))
  {
    var s' := SuspendRuntime(s, r);
    OwnContainerIsRecorded(s, r);
    SuspendTouches(s, r);
    TouchKeepsOthers(s, s', r.id);
    forall c | c in s'.docker.containers && s'.docker.containers[c].owner == r.id ensures ContainerOk(s', c) {
      assert c in s.docker.containers;
    }
    assert IdOk(s', r.id);
    DockerCompleted(s', r.id);
  }

  lemma SuspendTouches(s: State, r: Record)
    requires OwnsId(s, r) && forall c | c in s.docker.containers :: c < s.docker.nextId
    ensures OnlyTouches(s, SuspendRuntime(s, r), r.id)
  {}

  lemma StartBackendKeepsDocker(cfg: Config, s: State, r: Record, starts: bool)
    requires DockerBut(s, r.id) && NoContainer(s.docker, r.id) && r.container.None? && !r.kind.Unsupported?
    requires PassedThrough(cfg, r) <= Devices(r)
    ensures DockerOk(StartBackend(cfg, s, r, starts))
  {
    if starts {
      StartedKeepsDocker(cfg, s, r);
    } else {
      var cleaned := if r.kind.Vm? then s else s.(docker := RemoveNamed(s.docker, r.id, r.kind));
      TouchKeepsOthers(s, cleaned, r.id);
      FailKeepsDocker(cleaned, r);
    }
  }

  lemma StartedTouches(cfg: Config, s: State, r: Record)
    requires DockerBut(s, r.id) && NoContainer(s.docker, r.id)
    ensures OnlyTouches(s, StartBackend(cfg, s, r, true), r.id)
  {}

  lemma StartedKeepsDocker(cfg: Config, s: State, r: Record)
    requires DockerBut(s, r.id) && NoContainer(s.docker, r.id) && r.container.None? && !r.kind.Unsupported?
    requires PassedThrough(cfg, r) <= Devices(r)
    ensures DockerOk(StartBackend(cfg, s, r, true))
  {
    var s' := StartBackend(cfg, s, r, true);
    StartedTouches(cfg, s, r);
    TouchKeepsOthers(s, s', r.id);
    DockerCompleted(s', r.id);
  }

  // Whatever the allocator grants, docker run passes exactly the recorded devices.
  lemma EquippedIsPinned(cfg: Config, r: Record, w: Workload, devices: seq<int>)
    requires GpusWanted(r.kind, w) > 0 ==> devices != []
    requires !r.kind.Vm?
    ensures PassedThrough(cfg, Equipped(cfg, r, w, GpusWanted(r.kind, w), devices)) <= Elements(devices)
  {}

  lemma LaunchKeepsDocker(cfg: Config, s: State, r: Record, w: Workload, devices: seq<int>, a: Answers)
    requires DockerBut(s, r.id) && NoContainer(s.docker, r.id) && r.container.None? && !r.kind.Unsupported?
    requires Get(s.store, r.id) == Some(r)
    requires GpusWanted(r.kind, w) > 0 ==> devices != []
    ensures DockerOk(Launch(cfg, s, r, w, GpusWanted(r.kind, w), devices, a).state)
  {
    var named := Equipped(cfg, r, w, GpusWanted(r.kind, w), devices);
    var preparation := if r.kind.Vm? then Prepared else a.preparation;
    match preparation
    case Prepared =>
      var starting := named.(status := Starting);
      if r.kind.Vm? {
        StartVmKeepsDocker(cfg, s, starting, a.backendStarts);
      } else {
        EquippedIsPinned(cfg, r, w, devices);
        TouchKeepsOthers(s, Saved(s, starting), r.id);
        StartBackendKeepsDocker(cfg, Saved(s, starting), starting, a.backendStarts);
      }
    case DeclaredError =>
      FailKeepsDocker(s, if r.kind.Inference? then named else r);
    case UnexpectedError =>
      DockerCompleted(s, r.id);
  }

  lemma StartVmKeepsDocker(cfg: Config, s: State, r: Record, starts: bool)
    requires DockerBut(s, r.id) && NoContainer(s.docker, r.id) && r.container.None? && r.kind.Vm?
    ensures DockerOk(StartBackend(cfg, Saved(s, r), r, starts))
  {
    var s' := StartBackend(cfg, Saved(s, r), r, starts);
    TouchKeepsOthers(s, s', r.id);
    DockerCompleted(s', r.id);
  }

  lemma SomeDevicesGranted(cfg: Config, s: State, r: Record, w: Workload, a: Answers, g: Grant)
    requires g == StartGrant(cfg, s, r, w, a) && g.Granted? && GpusWanted(r.kind, w) > 0
    ensures g.devices != []
  {
    AllocateGrants(cfg.totalGpus, s.alloc, r.id, GpusWanted(r.kind, w), Foreign(s.alloc, a.startBusy));
  }

  lemma GrantedKeepsDocker(cfg: Config, s: State, r: Record, w: Workload, a: Answers, g: Grant)
    requires DockerBut(s, r.id) && NoContainer(s.docker, r.id) && r.container.None? && !r.kind.Unsupported?
    requires Get(s.store, r.id) == Some(r) && g == StartGrant(cfg, s, r, w, a) && g.Granted?
    ensures DockerOk(Launch(cfg, s.(alloc := g.after), r, w, GpusWanted(r.kind, w), g.devices, a).state)
  {
    if GpusWanted(r.kind, w) > 0 {
      SomeDevicesGranted(cfg, s, r, w, a, g);
    }
    TouchKeepsOthers(s, s.(alloc := g.after), r.id);
    LaunchKeepsDocker(cfg, s.(alloc := g.after), r, w, g.devices, a);
  }

  lemma StartKeepsDocker(cfg: Config, s: State, r: Record, w: Workload, a: Answers)
    requires DockerBut(s, r.id) && NoContainer(s.docker, r.id) && r.container.None? && !r.kind.Unsupported?
    requires Get(s.store, r.id) == Some(r)
    ensures DockerOk(StartRuntime(cfg, s, r, w, a).state)
  {
    var g := StartGrant(cfg, s, r, w, a);
    if (r.kind.Pod? && !a.sshReady) || g.Refused? {
      FailKeepsDocker(s, r);
    } else {
      GrantedKeepsDocker(cfg, s, r, w, a, g);
    }
  }

  lemma ResumePodKeepsDocker(s: State, r: Record, devices: seq<int>, a: Answers)
    requires DockerOk(s) && Get(s.store, r.id) == Some(r) && r.status.Suspended? && r.kind.Pod?
    requires r.gpuDevices != [] ==> Elements(devices) == Devices(r)
    ensures DockerOk(ResumePod(s, r, devices, a))
  {
    var s' := ResumePod(s, r, devices, a);
    OwnContainerIsRecorded(s, r);
    ResumePodTouches(s, r, devices, a);
    TouchKeepsOthers(s, s', r.id);
    forall c | c in s'.docker.containers && s'.docker.containers[c].owner == r.id ensures ContainerOk(s', c) {
      assert c in s.docker.containers;
    }
    DockerCompleted(s', r.id);
  }

  lemma ResumePodTouches(s: State, r: Record, devices: seq<int>, a: Answers)
    requires OwnsId(s, r) && forall c | c in s.docker.containers :: c < s.docker.nextId
    ensures OnlyTouches(s, ResumePod(s, r, devices, a), r.id)
  {}

  lemma RedispatchKeepsDocker(cfg: Config, s: State, r: Record, a: Answers)
    requires DockerOk(s) && Get(s.store, r.id) == Some(r) && r.status.Suspended?
    requires r.kind.Inference? || r.kind.Vm?
    ensures DockerOk(Redispatch(cfg, s, r, a).state)
  {
    if a.workload.Found? {
      var r1 := r.(status := Accepted);
      assert IdOk(s, r.id);
      assert r.container.None?;
      forall c | c in s.docker.containers ensures s.docker.containers[c].owner != r.id {
        assert ContainerOk(s, c);
      }
      TouchKeepsOthers(s, Saved(s, r1), r.id);
      StartKeepsDocker(cfg, Saved(s, r1), r1, a.workload.workload, a);
    }
  }

  lemma SameDockerKeeps(s: State, s': State)
    requires DockerOk(s) && s'.docker == s.docker && s'.store == s.store
    ensures DockerOk(s')
  {
    forall c | c in s'.docker.containers ensures ContainerOk(s', c) {
      assert ContainerOk(s, c);
    }
    forall d ensures IdOk(s', d) {
      assert IdOk(s, d);
    }
  }

  lemma ResumeKeepsDocker(cfg: Config, s: State, r: Record, a: Answers)
    requires DockerOk(s) && Exclusive(cfg, s) && Get(s.store, r.id) == Some(r) && r.status.Suspended?
    ensures DockerOk(ResumeRuntime(cfg, s, r, a).state)
  {
    assert Matches(s, r.id) && RecordOk(cfg, r);
    var g := ResumeGrant(cfg, s, r, a);
    if g.Granted? {
      var s1 := s.(alloc := g.after);
      SameDockerKeeps(s, s1);
      if r.kind.Pod? {
        if r.gpuDevices != [] {
          AllocateSpecificIsFair(cfg.totalGpus, s.alloc, r.id, r.gpuDevices);
        }
        ResumePodKeepsDocker(s1, r, g.devices, a);
      } else {
        SameDockerKeeps(s, FreedGpus(s1, r.id));
        RedispatchKeepsDocker(cfg, FreedGpus(s1, r.id), r, a);
      }
    }
  }

  lemma DispatchKeepsDocker(cfg: Config, s: State, lease: Lease, a: Answers)
    requires DockerOk(s) && Get(s.store, lease.deployment).None?
    ensures DockerOk(DispatchGuarded(cfg, s, lease, a))
  {
    var d := lease.deployment;
    SameDockerKeeps(s, Reported(s, d, DFailed));
    if a.workload.Found? {
      var w := a.workload.workload;
      var r := FreshRecord(lease, w);
      forall c | c in s.docker.containers ensures s.docker.containers[c].owner != d {
        assert ContainerOk(s, c);
      }
      TouchKeepsOthers(s, Saved(s, r), d);
      if w.kind.Unsupported? {
        FailKeepsDocker(Saved(s, r), r);
      } else {
        StartKeepsDocker(cfg, Saved(s, r), r, w, a);
        var o := StartRuntime(cfg, Saved(s, r), r, w, a);
        SameDockerKeeps(o.state, Reported(o.state, d, DFailed));
      }
    }
  }

  // Forgetting a record whose containers are gone.
  lemma RemoveKeepsDocker(s: State, d: string)
    requires DockerOk(s) && NoContainer(s.docker, d)
    ensures DockerOk(Removed(s, d))
  {
    TouchKeepsOthers(s, Removed(s, d), d);
    DockerCompleted(Removed(s, d), d);
  }

  lemma HandleLeaseKeepsDocker(cfg: Config, s: State, lease: Lease, a: Answers)
    requires DockerOk(s) && Exclusive(cfg, s)
    ensures DockerOk(HandleLease(cfg, s, lease, a).state)
  {
    var d := lease.deployment;
    match Get(s.store, d)
    case None =>
      if !lease.suspended {
        DispatchKeepsDocker(cfg, s, lease, a);
      }
    case Some(r) =>
      assert r.id == d && RecordOk(cfg, r);
      if lease.suspended {
        if Holding(r.status) {
          SuspendKeepsDocker(s, r);
        }
      } else if r.status.Suspended? {
        ResumeKeepsDocker(cfg, s, r, a);
      } else if r.status.Accepted? || r.status.Starting? {
        TerminateKeepsDocker(s, r, false);
        RemoveKeepsDocker(TerminateRuntime(s, r, false), d);
        DispatchKeepsDocker(cfg, Removed(TerminateRuntime(s, r, false), d), lease, a);
      }
  }

  lemma CleanupOneKeepsDocker(cfg: Config, s: State, d: string, active: set<string>, fleet: set<string>,
                              dep: DeploymentAnswer)
    requires DockerOk(s) && Exclusive(cfg, s)
    ensures DockerOk(CleanupOne(s, d, active, fleet, dep))
  {
    match Get(s.store, d)
    case None =>
    case Some(r) =>
      assert r.id == d;
      TerminateKeepsDocker(s, r, true);
      TerminateKeepsDocker(s, r, d !in fleet);
      RemoveKeepsDocker(TerminateRuntime(s, r, true), d);
  }

  lemma RecoverOneKeepsDocker(cfg: Config, s: State, d: string, dep: DeploymentAnswer)
    requires DockerOk(s) && Exclusive(cfg, s)
    ensures DockerOk(RecoverOne(s, d, dep))
  {
    match Get(s.store, d)
    case None =>
    case Some(r) =>
      assert r.id == d;
      TerminateKeepsDocker(s, r, true);
      TerminateKeepsDocker(s, r, false);
  }

  // -------------------------------------------------------------------- passes

  ghost predicate NodeOk(cfg: Config, s: State) {
    Exclusive(cfg, s) && DockerOk(s)
  }

  lemma ReconcileKeepsNode(cfg: Config, s: State, inp: PassInput)
    requires NodeOk(cfg, s)
    ensures NodeOk(cfg, Reconcile(cfg, s, inp))
  {
    var P := (x: State) => NodeOk(cfg, x);
    var mine := Mine(cfg, Leases(inp));
    forall x: State, j: nat | j < |mine| && P(x) ensures P(HandleLease(cfg, x, mine[j], inp.answers(j)).state) {
      HandleLeaseKeeps(cfg, x, mine[j], inp.answers(j));
      HandleLeaseKeepsDocker(cfg, x, mine[j], inp.answers(j));
    }
    var active, fleet := Deployments(mine), Deployments(Leases(inp));
    forall ids ensures EachCleanupKeeps(ids, active, fleet, inp.deployment, P) {
      forall x: State, d | d in ids && P(x) ensures P(CleanupOne(x, d, active, fleet, inp.deployment(d))) {
        CleanupOneKeeps(cfg, x, d, active, fleet, inp.deployment(d));
        CleanupOneKeepsDocker(cfg, x, d, active, fleet, inp.deployment(d));
      }
    }
    ReconcileKeeps(cfg, s, inp, P);
  }

  lemma RecoverKeepsNode(cfg: Config, s: State, dep: string -> DeploymentAnswer)
    requires NodeOk(cfg, s)
    ensures NodeOk(cfg, Recover(s, dep))
  {
    var P := (x: State) => NodeOk(cfg, x);
    forall x: State, d | d in s.store.order && P(x) ensures P(RecoverOne(x, d, dep(d))) {
      RecoverOneKeeps(cfg, x, d, dep(d));
      RecoverOneKeepsDocker(cfg, x, d, dep(d));
    }
    RecoverLoopKeeps(s, s.store.order, dep, 0, P);
  }

  lemma UserTerminateKeepsNode(cfg: Config, s: State, d: string)
    requires NodeOk(cfg, s)
    ensures NodeOk(cfg, UserTerminate(s, d))
  {
    UserTerminateKeepsExclusive(cfg, s, d);
    if Get(s.store, d).Some? {
      assert s.store.runtimes[d].id == d;
      TerminateKeepsDocker(s, s.store.runtimes[d], true);
    }
  }

  // A restart between passes: the process forgets everything but its state file.
  lemma RestartKeepsNode(cfg: Config, s: State)
    requires NodeOk(cfg, s)
    ensures NodeOk(cfg, Restart(s, s.store))
  {
    RestartKeepsExclusive(cfg, s, s.store);
    SameDockerKeeps(s, Restart(s, s.store));
  }

  // The headline: a running container's devices are inside its own deployment's
  // entry, hence two running containers of different deployments share none.
  lemma RunningContainersAreIsolated(cfg: Config, s: State, c: nat, e: nat)
    requires NodeOk(cfg, s)
    requires c in s.docker.containers && s.docker.containers[c].running
    requires e in s.docker.containers && s.docker.containers[e].running && c != e
    ensures s.docker.containers[c].devices <= Entry(s.alloc, s.docker.containers[c].owner)
    ensures s.docker.containers[c].owner != s.docker.containers[e].owner
    ensures s.docker.containers[c].devices !! s.docker.containers[e].devices
  {
    var k, l := s.docker.containers[c], s.docker.containers[e];
    assert ContainerOk(s, c) && ContainerOk(s, e);
    assert Matches(s, k.owner) && Matches(s, l.owner);
    assert Devices(s.store.runtimes[k.owner]) !! Devices(s.store.runtimes[l.owner]);
  }
}
