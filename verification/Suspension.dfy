/** Suspended work: what survives while it is stopped, and how pods come back. */
module Suspension {
  import opened Common
  import opened GpuAllocation
  import opened Repository
  import opened NodeModel
  import opened Loops
  import opened Exclusivity
  import opened Containers
  import opened Steps
  import opened Runs
  import opened Lifecycle

  // --------------------------------------------------------------- one resume

  ghost predicate SameHoldings(m: Allocations, m': Allocations) {
    forall d :: Entry(m', d) == Entry(m, d)
  }

  // What the allocator has to have for a resume: the pod's own devices, or any.
  ghost predicate CanRegrant(cfg: Config, s: State, r: Record, a: Answers) {
    if r.gpuDevices != [] then Available(cfg.totalGpus, s.alloc, r.id, r.gpuDevices)
    else |Free(cfg.totalGpus, s.alloc) - Foreign(s.alloc, a.resumeBusy)| >= ResumeGpuCount(r)
  }

  lemma RegrantIsExact(cfg: Config, s: State, r: Record, a: Answers)
    requires r.kind.Pod?
    ensures var g := ResumeGrant(cfg, s, r, a);
            && (g.Granted? <==> CanRegrant(cfg, s, r, a))
            && (g.Granted? ==> g.devices != [] && g.after == s.alloc[r.id := Elements(g.devices)])
            && (g.Granted? && r.gpuDevices != [] ==> Elements(g.devices) == Devices(r))
  {
    var g := ResumeGrant(cfg, s, r, a);
    if r.gpuDevices != [] {
      AllocateSpecificIsExact(cfg.totalGpus, s.alloc, r.id, r.gpuDevices, g);
      assert r.gpuDevices[0] in Elements(r.gpuDevices);
    } else {
      AllocateGrants(cfg.totalGpus, s.alloc, r.id, ResumeGpuCount(r), Foreign(s.alloc, a.resumeBusy));
    }
  }

  // Back in its old container, on the devices its record now names.
  ghost predicate CameBack(s: State, s': State, r: Record) {
    && Get(s'.store, r.id).Some?
    && var r' := s'.store.runtimes[r.id];
    && r'.status.Ready? && r'.container == r.container
    && (r.container.Some? ==>
          r.container.value in s'.docker.containers && s'.docker.containers[r.container.value].running)
    && r'.gpuCount == Some(ResumeGpuCount(r)) && s'.log == s.log + [Report(r.id, DReady)]
    && (r.gpuDevices != [] ==> Devices(r') == Devices(r))
    && Entry(s'.alloc, r.id) == Devices(r')
    && forall e | e != r.id :: Entry(s'.alloc, e) == Entry(s.alloc, e)
  }

  // Still suspended, and nobody's devices or containers changed.
  ghost predicate StayedBehind(s: State, s': State, r: Record) {
    && Get(s'.store, r.id).Some?
    && var r' := s'.store.runtimes[r.id];
    && r'.status.Suspended? && r'.container == r.container
    && SameHoldings(s.alloc, s'.alloc) && s'.docker == s.docker
  }

  lemma GivenBack(m: Allocations, d: string, devices: set<int>)
    requires Entry(m, d) == {}
    ensures SameHoldings(m, Released(m[d := devices], d))
  {}

  lemma RegrantedPod(cfg: Config, s: State, r: Record, a: Answers, g: Grant)
    requires r.kind.Pod? && g == ResumeGrant(cfg, s, r, a) && g.Granted?
    ensures g.devices != [] && (r.gpuDevices != [] ==> Elements(g.devices) == Devices(r))
    ensures ResumeRuntime(cfg, s, r, a)
         == Done(ResumePod(s.(alloc := s.alloc[r.id := Elements(g.devices)]), r, g.devices, a))
  {
    RegrantIsExact(cfg, s, r, a);
  }

  lemma PodComesBack(s: State, r: Record, devices: seq<int>, a: Answers)
    requires PodResumes(s.docker, r, a) && (r.gpuDevices != [] ==> Elements(devices) == Devices(r))
    ensures CameBack(s, ResumePod(s.(alloc := s.alloc[r.id := Elements(devices)]), r, devices, a), r)
  {}

  lemma PodStaysBehind(s: State, r: Record, devices: seq<int>, a: Answers)
    requires !PodResumes(s.docker, r, a) && Entry(s.alloc, r.id) == {}
    ensures var s' := ResumePod(s.(alloc := s.alloc[r.id := Elements(devices)]), r, devices, a);
            StayedBehind(s, s', r) && s'.store.runtimes[r.id].gpuDevices == devices
  {
    GivenBack(s.alloc, r.id, Elements(devices));
  }

  lemma RefusedPodStays(cfg: Config, s: State, r: Record, a: Answers)
    requires Exclusive(cfg, s) && Get(s.store, r.id) == Some(r)
    requires r.status.Suspended? && r.kind.Pod? && ResumeGrant(cfg, s, r, a).Refused?
    ensures ResumeRuntime(cfg, s, r, a).Done?
    ensures var s' := ResumeRuntime(cfg, s, r, a).state;
            StayedBehind(s, s', r) && s'.store.runtimes[r.id].gpuDevices == r.gpuDevices
  {}

  lemma GrantedPodEnds(cfg: Config, s: State, r: Record, a: Answers, g: Grant)
    requires Exclusive(cfg, s) && Get(s.store, r.id) == Some(r)
    requires r.status.Suspended? && r.kind.Pod? && g == ResumeGrant(cfg, s, r, a) && g.Granted?
    ensures ResumeRuntime(cfg, s, r, a).Done?
    ensures g.devices != [] && (r.gpuDevices != [] ==> Elements(g.devices) == Devices(r))
    ensures var s' := ResumeRuntime(cfg, s, r, a).state;
            if PodResumes(s.docker, r, a) then CameBack(s, s', r)
            else StayedBehind(s, s', r) && s'.store.runtimes[r.id].gpuDevices == g.devices
  {
    RegrantedPod(cfg, s, r, a, g);
    if PodResumes(s.docker, r, a) {
      PodComesBack(s, r, g.devices, a);
    } else {
      assert Matches(s, r.id);
      PodStaysBehind(s, r, g.devices, a);
    }
  }

  // A suspended pod resumes all or nothing: it comes back in its old container, on
  // exactly its old devices if it named any, iff the devices are there and docker
  // start works; otherwise it stays suspended and nobody's devices change. A failed
  // attempt leaves the devices it names alone iff it named some or got none.
  lemma PodResumeIsAllOrNothing(cfg: Config, s: State, r: Record, a: Answers)
    requires Exclusive(cfg, s) && Get(s.store, r.id) == Some(r)
    requires r.status.Suspended? && r.kind.Pod?
    ensures var s' := ResumeRuntime(cfg, s, r, a).state;
            var granted := CanRegrant(cfg, s, r, a);
            && ResumeRuntime(cfg, s, r, a).Done?
            && (if granted && PodResumes(s.docker, r, a) then CameBack(s, s', r)
                else
                  && StayedBehind(s, s', r)
                  && (Devices(s'.store.runtimes[r.id]) == Devices(r) <==> r.gpuDevices != [] || !granted))
  {
    RegrantIsExact(cfg, s, r, a);
    var g := ResumeGrant(cfg, s, r, a);
    if g.Refused? {
      RefusedPodStays(cfg, s, r, a);
    } else {
      GrantedPodEnds(cfg, s, r, a, g);
      assert g.devices[0] in Elements(g.devices);
    }
  }

  // The failing family: a CPU-only pod whose docker start fails is from then on tied
  // to the devices it was granted for the attempt.
  lemma FailedResumePinsCpuPod(cfg: Config, s: State, r: Record, a: Answers, t: State, b: Answers)
    requires Exclusive(cfg, s) && Get(s.store, r.id) == Some(r)
    requires r.status.Suspended? && r.kind.Pod? && r.gpuDevices == []
    requires CanRegrant(cfg, s, r, a) && !PodResumes(s.docker, r, a)
    ensures var r' := ResumeRuntime(cfg, s, r, a).state.store.runtimes[r.id];
            && r'.gpuDevices != []
            && (ResumeGrant(cfg, t, r', b).Granted? <==> Available(cfg.totalGpus, t.alloc, r.id, r'.gpuDevices))
  {
    assert Matches(s, r.id);
    RegrantIsExact(cfg, s, r, a);
    var g := ResumeGrant(cfg, s, r, a);
    RegrantedPod(cfg, s, r, a, g);
    PodStaysBehind(s, r, g.devices, a);
    RegrantIsExact(cfg, t, ResumeRuntime(cfg, s, r, a).state.store.runtimes[r.id], b);
  }

  // ------------------------------------------------------------ across one pass

  // `r` still stands for the same tenant container, stopped or running again.
  ghost predicate SamePod(s: State, d: string, c: nat, devices: set<int>) {
    && Get(s.store, d).Some?
    && var r := s.store.runtimes[d];
    && r.kind.Pod? && r.container == Some(c) && (r.status.Suspended? || r.status.Ready?)
    && c in s.docker.containers
    && var k := s.docker.containers[c];
    && k.owner == d && k.kind.Pod? && k.devices == devices
  }

  lemma SuspendKeepsPod(s: State, r: Record, c: nat, devices: set<int>)
    requires SamePod(s, r.id, c, devices) && Get(s.store, r.id) == Some(r)
    ensures SamePod(SuspendRuntime(s, r), r.id, c, devices)
  {}

  lemma ResumeKeepsPod(cfg: Config, s: State, r: Record, a: Answers, c: nat, devices: set<int>)
    requires SamePod(s, r.id, c, devices) && Get(s.store, r.id) == Some(r) && r.status.Suspended?
    ensures SamePod(ResumeRuntime(cfg, s, r, a).state, r.id, c, devices)
  {}

  lemma OwnLeaseKeepsPod(cfg: Config, s: State, lease: Lease, a: Answers, c: nat, devices: set<int>)
    requires NodeOk(cfg, s) && SamePod(s, lease.deployment, c, devices)
    ensures SamePod(HandleLease(cfg, s, lease, a).state, lease.deployment, c, devices)
  {
    var r := s.store.runtimes[lease.deployment];
    assert r.id == lease.deployment;
    SuspendKeepsPod(s, r, c, devices);
    if r.status.Suspended? {
      ResumeKeepsPod(cfg, s, r, a, c, devices);
    }
  }

  // The docker half of Serves: nobody else's container changes or goes, except that a
  // start takes the name it needs from any container of the kinds it starts.
  predicate TakenBy(k: Container, d: string, kinds: set<Kind>) {
    k.kind in kinds && Name(k.owner) == Name(d)
  }

  ghost predicate Spares(s: State, s': State, d: string, kinds: set<Kind>) {
    forall c | c in s.docker.containers && s.docker.containers[c].owner != d
               && !TakenBy(s.docker.containers[c], d, kinds) ::
      Lookup(s'.docker.containers, c) == Some(s.docker.containers[c])
  }

  // A lease that runs a fresh pod if devices and preparation allow.
  predicate StartsPod(lease: Lease, a: Answers) {
    !lease.suspended && a.workload.Found? && a.workload.workload.kind.Pod?
  }

  function KindsStarted(lease: Lease, a: Answers): set<Kind> {
    if StartsPod(lease, a) then {Inference, Pod} else {Inference}
  }

  lemma StartSpares(cfg: Config, s: State, r: Record, w: Workload, a: Answers)
    requires forall c | c in s.docker.containers :: c < s.docker.nextId
    ensures Spares(s, StartRuntime(cfg, s, r, w, a).state, r.id, {r.kind})
  {
    var g := StartGrant(cfg, s, r, w, a);
    if g.Granted? {
      LaunchSpares(cfg, s.(alloc := g.after), r, w, GpusWanted(r.kind, w), g.devices, a);
    }
  }

  lemma LaunchSpares(cfg: Config, s: State, r: Record, w: Workload, gpus: nat, devices: seq<int>, a: Answers)
    requires forall c | c in s.docker.containers :: c < s.docker.nextId
    ensures Spares(s, Launch(cfg, s, r, w, gpus, devices, a).state, r.id, {r.kind})
  {
    var starting := Equipped(cfg, r, w, gpus, devices).(status := Starting);
    BackendSpares(cfg, Saved(s, starting), starting, a.backendStarts);
  }

  lemma BackendSpares(cfg: Config, s: State, r: Record, starts: bool)
    requires forall c | c in s.docker.containers :: c < s.docker.nextId
    ensures Spares(s, StartBackend(cfg, s, r, starts), r.id, {r.kind})
  {}

  lemma DispatchSpares(cfg: Config, s: State, lease: Lease, a: Answers)
    requires !lease.suspended
    requires forall c | c in s.docker.containers :: c < s.docker.nextId && !s.docker.containers[c].kind.Vm?
    ensures Spares(s, DispatchGuarded(cfg, s, lease, a), lease.deployment, KindsStarted(lease, a))
  {
    if a.workload.Found? {
      var r := FreshRecord(lease, a.workload.workload);
      StartSpares(cfg, Saved(s, r), r, a.workload.workload, a);
    }
  }

  lemma TerminateSpares(s: State, r: Record, report: bool)
    requires DockerOk(s) && Get(s.store, r.id) == Some(r)
    ensures Spares(s, TerminateRuntime(s, r, report), r.id, {})
  {
    assert IdOk(s, r.id);
  }

  lemma SuspendSpares(s: State, r: Record)
    requires DockerOk(s) && Get(s.store, r.id) == Some(r)
    ensures Spares(s, SuspendRuntime(s, r), r.id, {})
  {
    assert IdOk(s, r.id);
  }

  lemma ResumeSpares(cfg: Config, s: State, r: Record, a: Answers)
    requires DockerOk(s) && Get(s.store, r.id) == Some(r)
    ensures Spares(s, ResumeRuntime(cfg, s, r, a).state, r.id, {Inference})
  {
    assert IdOk(s, r.id);
    OnlyTheseKinds(s);
    var g := ResumeGrant(cfg, s, r, a);
    if g.Granted? {
      var s1 := s.(alloc := g.after);
      assert Spares(s, ResumePod(s1, r, g.devices, a), r.id, {});
      if a.workload.Found? {
        var r1 := r.(status := Accepted);
        StartSpares(cfg, Saved(FreedGpus(s1, r.id), r1), r1, a.workload.workload, a);
      }
    }
  }

  lemma OnlyTheseKinds(s: State)
    requires DockerOk(s)
    ensures forall c | c in s.docker.containers ::
              s.docker.containers[c].kind.Pod? || s.docker.containers[c].kind.Inference?
  {
    forall c | c in s.docker.containers
      ensures s.docker.containers[c].kind.Pod? || s.docker.containers[c].kind.Inference?
    {
      assert ContainerOk(s, c);
    }
  }

  lemma HandleLeaseSpares(cfg: Config, s: State, lease: Lease, a: Answers)
    requires NodeOk(cfg, s)
    ensures Spares(s, HandleLease(cfg, s, lease, a).state, lease.deployment, KindsStarted(lease, a))
  {
    OnlyTheseKinds(s);
    match Get(s.store, lease.deployment)
    case None =>
      if !lease.suspended {
        DispatchSpares(cfg, s, lease, a);
      }
    case Some(r) =>
      assert r.id == lease.deployment;
      if lease.suspended {
        SuspendSpares(s, r);
      } else if r.status.Suspended? {
        ResumeSpares(cfg, s, r, a);
      } else if r.status.Accepted? || r.status.Starting? {
        TerminateSpares(s, r, false);
        TerminateKeepsDocker(s, r, false);
        DispatchSpares(cfg, Removed(TerminateRuntime(s, r, false), r.id), lease, a);
      }
  }

  lemma CleanupOneSpares(cfg: Config, s: State, d: string, active: set<string>, fleet: set<string>,
                         dep: DeploymentAnswer)
    requires NodeOk(cfg, s)
    ensures Spares(s, CleanupOne(s, d, active, fleet, dep), d, {})
  {
    match Get(s.store, d)
    case None =>
    case Some(r) =>
      assert r.id == d;
      TerminateSpares(s, r, true);
      TerminateSpares(s, r, d !in fleet);
  }

  lemma RecoverOneSpares(cfg: Config, s: State, d: string, dep: DeploymentAnswer)
    requires NodeOk(cfg, s)
    ensures Spares(s, RecoverOne(s, d, dep), d, {})
  {
    match Get(s.store, d)
    case None =>
    case Some(r) =>
      assert r.id == d;
      TerminateSpares(s, r, dep.Exists? && (dep.state.DTerminated? || dep.state.DFailed?));
  }

  lemma ServedPodIsKept(s: State, s': State, e: string, kinds: set<Kind>, d: string, c: nat, devices: set<int>)
    requires Serves(s, s', e) && Spares(s, s', e, kinds) && e != d && SamePod(s, d, c, devices)
    requires Pod in kinds ==> Name(e) != Name(d)
    ensures SamePod(s', d, c, devices) && Get(s'.store, d) == Get(s.store, d)
    ensures Lookup(s'.docker.containers, c) == Lookup(s.docker.containers, c)
  {}

  // Handling the lease may run another pod under the name of d's.
  predicate TakesNameOf(lease: Lease, a: Answers, d: string) {
    lease.deployment != d && Name(lease.deployment) == Name(d) && StartsPod(lease, a)
  }

  ghost predicate NameIsTaken(cfg: Config, inp: PassInput, d: string) {
    var mine := Mine(cfg, Leases(inp));
    exists j: nat :: j < |mine| && TakesNameOf(mine[j], inp.answers(j), d)
  }

  ghost predicate HasOwnLease(cfg: Config, inp: PassInput, d: string) {
    exists l :: l in Leases(inp) && IsMine(cfg, l) && l.deployment == d
  }

  lemma OwnDeployments(cfg: Config, inp: PassInput, d: string)
    ensures d in Deployments(Mine(cfg, Leases(inp))) <==> HasOwnLease(cfg, inp, d)
  {
    if d in Deployments(Mine(cfg, Leases(inp))) {
      var l :| l in Mine(cfg, Leases(inp)) && l.deployment == d;
      assert l in Leases(inp) && IsMine(cfg, l);
    }
    if l :| l in Leases(inp) && IsMine(cfg, l) && l.deployment == d {
      assert l in Mine(cfg, Leases(inp));
    }
  }

  // A lease of `d` on this node that is not marked suspended: the order to resume it.
  ghost predicate AsksResume(cfg: Config, inp: PassInput, d: string) {
    exists l :: l in Leases(inp) && IsMine(cfg, l) && l.deployment == d && !l.suspended
  }

  // Where d's pod is on the way from s to x: the same container, and untouched unless
  // the pass is asked to resume it.
  ghost predicate PodKept(cfg: Config, s: State, x: State, d: string, c: nat, devices: set<int>, resumed: bool) {
    && NodeOk(cfg, x) && SamePod(x, d, c, devices)
    && (resumed || (Get(x.store, d) == Get(s.store, d)
                    && Lookup(x.docker.containers, c) == Lookup(s.docker.containers, c)))
  }

  lemma SuspendedPodIsKept(cfg: Config, s: State, d: string, c: nat, resumed: bool)
    requires NodeOk(cfg, s) && Get(s.store, d).Some? && s.store.runtimes[d].status.Suspended?
    requires s.store.runtimes[d].kind.Pod? && s.store.runtimes[d].container == Some(c) && c in s.docker.containers
    ensures PodKept(cfg, s, s, d, c, s.docker.containers[c].devices, resumed)
  {
    assert IdOk(s, d) && ContainerOk(s, c);
  }

  lemma LeaseKeepsPod(cfg: Config, s: State, x: State, l: Lease, a: Answers, d: string, c: nat, devices: set<int>,
                      resumed: bool)
    requires PodKept(cfg, s, x, d, c, devices, resumed) && !TakesNameOf(l, a, d)
    requires l.deployment == d && !l.suspended ==> resumed
    requires resumed || (Get(s.store, d).Some? && s.store.runtimes[d].status.Suspended?)
    ensures PodKept(cfg, s, HandleLease(cfg, x, l, a).state, d, c, devices, resumed)
  {
    HandleLeaseKeeps(cfg, x, l, a);
    HandleLeaseKeepsDocker(cfg, x, l, a);
    if l.deployment == d {
      OwnLeaseKeepsPod(cfg, x, l, a, c, devices);
    } else {
      HandleLeaseServes(cfg, x, l, a);
      HandleLeaseSpares(cfg, x, l, a);
      ServedPodIsKept(x, HandleLease(cfg, x, l, a).state, l.deployment, KindsStarted(l, a), d, c, devices);
    }
  }

  lemma CleanupKeepsPod(cfg: Config, s: State, x: State, e: string, active: set<string>, fleet: set<string>,
                        dep: DeploymentAnswer, d: string, c: nat, devices: set<int>, resumed: bool)
    requires PodKept(cfg, s, x, d, c, devices, resumed)
    requires e == d ==> CleanupOne(x, e, active, fleet, dep) == x
    ensures PodKept(cfg, s, CleanupOne(x, e, active, fleet, dep), d, c, devices, resumed)
  {
    if e != d {
      CleanupOneKeeps(cfg, x, e, active, fleet, dep);
      CleanupOneKeepsDocker(cfg, x, e, active, fleet, dep);
      CleanupOneServes(x, e, active, fleet, dep);
      CleanupOneSpares(cfg, x, e, active, fleet, dep);
      ServedPodIsKept(x, CleanupOne(x, e, active, fleet, dep), e, {}, d, c, devices);
    }
  }

  // A suspended pod survives any reconcile pass, whatever the leases and the lookups
  // answer, as the same container on the same devices, unless nothing on this node
  // leases it and the control plane says it is terminated, or the pass starts another
  // pod under its name. Unless it is asked to resume it stays suspended, record and
  // container untouched.
  lemma SuspendedPodSurvivesReconcile(cfg: Config, s: State, inp: PassInput, d: string, c: nat)
    requires NodeOk(cfg, s) && Get(s.store, d).Some? && s.store.runtimes[d].status.Suspended?
    requires s.store.runtimes[d].kind.Pod? && s.store.runtimes[d].container == Some(c)
    requires HasOwnLease(cfg, inp, d) || inp.deployment(d) != Exists(DTerminated)
    requires c in s.docker.containers && !NameIsTaken(cfg, inp, d)
    ensures SamePod(Reconcile(cfg, s, inp), d, c, s.docker.containers[c].devices)
    ensures !AsksResume(cfg, inp, d) ==>
              && Get(Reconcile(cfg, s, inp).store, d) == Get(s.store, d)
              && Lookup(Reconcile(cfg, s, inp).docker.containers, c) == Lookup(s.docker.containers, c)
  {
    var devices := s.docker.containers[c].devices;
    var resumed := AsksResume(cfg, inp, d);
    SuspendedPodIsKept(cfg, s, d, c, resumed);
    var P := (x: State) => PodKept(cfg, s, x, d, c, devices, resumed);
    var mine := Mine(cfg, Leases(inp));
    OwnDeployments(cfg, inp, d);
    forall x: State, j: nat | j < |mine| && P(x) ensures P(HandleLease(cfg, x, mine[j], inp.answers(j)).state) {
      assert mine[j] in mine;
      LeaseKeepsPod(cfg, s, x, mine[j], inp.answers(j), d, c, devices, resumed);
    }
    var active, fleet := Deployments(mine), Deployments(Leases(inp));
    forall ids ensures EachCleanupKeeps(ids, active, fleet, inp.deployment, P) {
      forall x: State, e | e in ids && P(x) ensures P(CleanupOne(x, e, active, fleet, inp.deployment(e))) {
        CleanupKeepsPod(cfg, s, x, e, active, fleet, inp.deployment(e), d, c, devices, resumed);
      }
    }
    ReconcileKeeps(cfg, s, inp, P);
  }

  // Recovery ends what the control plane does not know, or knows in no other state.
  predicate EndsInRecovery(dep: DeploymentAnswer) {
    !dep.Unreachable?
    && (dep.Exists? ==> dep.state !in {DReady, DStarting, DScheduled, DPulling, DDraining, DSuspended})
  }

  // Recovery keeps it too, unless the control plane answers that the deployment is
  // gone or in none of the states recovery keeps.
  lemma SuspendedPodSurvivesRecovery(cfg: Config, s: State, dep: string -> DeploymentAnswer, d: string, c: nat)
    requires NodeOk(cfg, s) && Get(s.store, d).Some? && s.store.runtimes[d].status.Suspended?
    requires s.store.runtimes[d].kind.Pod? && s.store.runtimes[d].container == Some(c)
    requires !EndsInRecovery(dep(d))
    requires c in s.docker.containers
    ensures Get(Recover(s, dep).store, d) == Get(s.store, d)
    ensures Lookup(Recover(s, dep).docker.containers, c) == Lookup(s.docker.containers, c)
  {
    var devices := s.docker.containers[c].devices;
    var P := (x: State) => PodKept(cfg, s, x, d, c, devices, false);
    SuspendedPodIsKept(cfg, s, d, c, false);
    forall x: State, e | e in s.store.order && P(x) ensures P(RecoverOne(x, e, dep(e))) {
      RecoverOneKeeps(cfg, x, e, dep(e));
      RecoverOneKeepsDocker(cfg, x, e, dep(e));
      if e != d {
        RecoverOneServes(x, e, dep(e));
        RecoverOneSpares(cfg, x, e, dep(e));
        ServedPodIsKept(x, RecoverOne(x, e, dep(e)), e, {}, d, c, devices);
      }
    }
    RecoverLoopKeeps(s, s.store.order, dep, 0, P);
  }

  // ------------------------------------------------------------------ whole runs

  // The events that may end a suspension of `d`, each on an explicit word of the
  // control plane or the user.
  ghost predicate EndsSuspension(cfg: Config, e: Event, d: string) {
    match e
    case ReconcilePass(inp) => EndsInReconcile(cfg, inp, d)
    case CrashInReconcile(inp, _, _, _) => EndsInReconcile(cfg, inp, d)
    case RecoveryPass(dep) => EndsInRecovery(dep(d))
    case CrashInRecovery(dep, _, _, _) => EndsInRecovery(dep(d))
    case UserTermination(f) => f == d
    case HeartbeatTick(_) => false
    case QuietRestart => false
  }

  ghost predicate EndsInReconcile(cfg: Config, inp: PassInput, d: string) {
    AsksResume(cfg, inp, d) || (!HasOwnLease(cfg, inp, d) && inp.deployment(d) == Exists(DTerminated))
  }

  ghost predicate TakesName(cfg: Config, e: Event, d: string) {
    e.ReconcilePass? && NameIsTaken(cfg, e.inp, d)
  }

  lemma OtherTerminationSparesPod(cfg: Config, s: State, f: string, d: string, c: nat)
    requires NodeOk(cfg, s) && f != d && c in s.docker.containers && s.docker.containers[c].owner == d
    ensures Get(UserTerminate(s, f).store, d) == Get(s.store, d)
    ensures Lookup(UserTerminate(s, f).docker.containers, c) == Lookup(s.docker.containers, c)
  {
    if Get(s.store, f).Some? {
      assert s.store.runtimes[f].id == f;
      TerminateServes(s, s.store.runtimes[f], true);
      TerminateSpares(s, s.store.runtimes[f], true);
    }
  }

  lemma SuspendedPodStep(cfg: Config, s: State, e: Event, d: string, c: nat)
    requires NodeOk(cfg, s) && Get(s.store, d).Some? && s.store.runtimes[d].status.Suspended?
    requires s.store.runtimes[d].kind.Pod? && s.store.runtimes[d].container == Some(c)
    requires c in s.docker.containers && !IsCrash(e) && !EndsSuspension(cfg, e, d) && !TakesName(cfg, e, d)
    ensures Get(Step(cfg, s, e).store, d) == Get(s.store, d)
    ensures Lookup(Step(cfg, s, e).docker.containers, c) == Lookup(s.docker.containers, c)
  {
    assert IdOk(s, d);
    match e
    case ReconcilePass(inp) => SuspendedPodSurvivesReconcile(cfg, s, inp, d, c);
    case RecoveryPass(dep) => SuspendedPodSurvivesRecovery(cfg, s, dep, d, c);
    case UserTermination(f) => OtherTerminationSparesPod(cfg, s, f, d, c);
    case HeartbeatTick(_) =>
    case QuietRestart =>
  }

  // Suspended work is preserved over whole runs: until some event ends the suspension
  // or takes the name, the record and the stopped container are exactly as they were.
  lemma {:induction false} SuspendedPodSurvivesRuns(cfg: Config, s: State, events: seq<Event>, d: string, c: nat)
    requires NodeOk(cfg, s) && Get(s.store, d).Some? && s.store.runtimes[d].status.Suspended?
    requires s.store.runtimes[d].kind.Pod? && s.store.runtimes[d].container == Some(c)
    requires c in s.docker.containers
    requires forall e | e in events :: !IsCrash(e) && !EndsSuspension(cfg, e, d) && !TakesName(cfg, e, d)
    ensures Get(Run(cfg, s, events).store, d) == Get(s.store, d)
    ensures Lookup(Run(cfg, s, events).docker.containers, c) == Lookup(s.docker.containers, c)
    decreases |events|
  {
    assert IdOk(s, d);
    if events != [] {
      assert events[0] in events;
      assert forall e | e in events[1..] :: e in events;
      SuspendedPodStep(cfg, s, events[0], d, c);
      StepKeepsNode(cfg, s, events[0]);
      SuspendedPodSurvivesRuns(cfg, Step(cfg, s, events[0]), events[1..], d, c);
    }
  }

  // ------------------------------------------------------ any kind, crashes included

  lemma SuspendedRecordInReconcile(cfg: Config, s: State, inp: PassInput, d: string, q: Phase)
    requires Exclusive(cfg, s) && Get(s.store, d).Some? && s.store.runtimes[d].status.Suspended?
    requires !EndsInReconcile(cfg, inp, d) && q == (o => o == Some(s.store.runtimes[d]))
    ensures Throughout(Reconcile(cfg, s, inp), |s.saves|, d, q)
  {
    var n, mine := |s.saves|, Mine(cfg, Leases(inp));
    OwnDeployments(cfg, inp, d);
    forall x: State, j: nat | j < |mine| && mine[j].deployment == d && Exclusive(cfg, x) && Throughout(x, n, d, q)
      ensures Throughout(HandleLease(cfg, x, mine[j], inp.answers(j)).state, n, d, q)
    {
      assert mine[j] in mine;
      assert mine[j].suspended;
    }
    ReconcileStays(cfg, s, inp, d, q);
  }

  lemma SuspendedRecordInRecovery(cfg: Config, s: State, dep: string -> DeploymentAnswer, d: string, q: Phase)
    requires Exclusive(cfg, s) && Get(s.store, d).Some? && s.store.runtimes[d].status.Suspended?
    requires !EndsInRecovery(dep(d)) && q == (o => o == Some(s.store.runtimes[d]))
    ensures Throughout(Recover(s, dep), |s.saves|, d, q)
  {
    RecoverStays(cfg, s, dep, d, q);
  }

  lemma SuspendedRecordStep(cfg: Config, s: State, e: Event, d: string)
    requires Exclusive(cfg, s) && Get(s.store, d).Some? && s.store.runtimes[d].status.Suspended?
    requires !EndsSuspension(cfg, e, d)
    ensures Get(Step(cfg, s, e).store, d) == Get(s.store, d)
  {
    var r := s.store.runtimes[d];
    var q: Phase := o => o == Some(r);
    if e.ReconcilePass? || e.CrashInReconcile? {
      SuspendedRecordInReconcile(cfg, s, e.inp, d, q);
    } else if e.RecoveryPass? || e.CrashInRecovery? {
      SuspendedRecordInRecovery(cfg, s, e.deployment, d, q);
    } else if e.UserTermination? && Get(s.store, e.d).Some? {
      TerminateServes(s, s.store.runtimes[e.d], true);
    }
    StepStays(cfg, s, e, d, q);
  }

  // The record of any suspended runtime outlives every run, even crashes in the
  // middle of passes, until an event ends the suspension on an explicit word.
  lemma {:induction false} SuspendedRecordSurvivesRuns(cfg: Config, s: State, events: seq<Event>, d: string)
    requires Exclusive(cfg, s) && Get(s.store, d).Some? && s.store.runtimes[d].status.Suspended?
    requires forall e | e in events :: !EndsSuspension(cfg, e, d)
    ensures Get(Run(cfg, s, events).store, d) == Get(s.store, d)
    decreases |events|
  {
    if events != [] {
      assert events[0] in events;
      assert forall e | e in events[1..] :: e in events;
      SuspendedRecordStep(cfg, s, events[0], d);
      StepKeepsExclusive(cfg, s, events[0]);
      SuspendedRecordSurvivesRuns(cfg, Step(cfg, s, events[0]), events[1..], d);
    }
  }
}
