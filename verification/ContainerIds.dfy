/** Container ids over time: docker never issues one twice, so a container that is
    gone stays gone, and every id a record or a state file names has been issued. This
    holds even when a crash leaves arbitrary containers behind. */
module ContainerIds {
  import opened Common
  import opened GpuAllocation
  import opened Repository
  import opened NodeModel
  import opened Loops
  import opened Exclusivity
  import opened Runs

  // No id that docker has yet to issue.
  predicate Issued(c: Option<nat>, n: nat) {
    c.Some? ==> c.value < n
  }

  ghost predicate AllIssued(store: Store, n: nat) {
    forall d | d in store.runtimes :: Issued(store.runtimes[d].container, n)
  }

  ghost predicate FreshIds(s: State) {
    && (forall c | c in s.docker.containers :: c < s.docker.nextId)
    && AllIssued(s.store, s.docker.nextId)
    && (forall i | 0 <= i < |s.saves| :: AllIssued(s.saves[i], s.docker.nextId))
  }

  // On the way from dk to dk' ids only go up and nothing comes back.
  ghost predicate Ages(dk: Docker, dk': Docker) {
    && dk.nextId <= dk'.nextId
    && (forall c | c in dk'.containers && c < dk.nextId :: c in dk.containers)
  }

  ghost predicate Advances(s: State, s': State) {
    FreshIds(s') && Ages(s.docker, s'.docker)
  }

  lemma SavedAdvances(s: State, r: Record)
    requires FreshIds(s) && Issued(r.container, s.docker.nextId)
    ensures Advances(s, Saved(s, r))
  {
    assert AllIssued(Put(s.store, r), s.docker.nextId);
  }

  lemma RemovedAdvances(s: State, d: string)
    requires FreshIds(s)
    ensures Advances(s, Removed(s, d))
  {
    assert AllIssued(Drop(s.store, d), s.docker.nextId);
  }

  // A change of the containers alone.
  lemma DockerAdvances(s: State, dk: Docker)
    requires FreshIds(s) && Ages(s.docker, dk) && forall c | c in dk.containers :: c < dk.nextId
    ensures Advances(s, s.(docker := dk))
  {
    forall i | 0 <= i < |s.saves| ensures AllIssued(s.saves[i], dk.nextId) {
      assert AllIssued(s.saves[i], s.docker.nextId);
    }
  }

  lemma FailAdvances(s: State, r: Record)
    requires FreshIds(s) && Issued(r.container, s.docker.nextId)
    ensures Advances(s, FailRuntime(s, r))
  {
    SavedAdvances(FreedGpus(s, r.id), r.(status := Failed));
  }

  lemma TerminateAdvances(s: State, r: Record, report: bool)
    requires FreshIds(s) && Issued(r.container, s.docker.nextId)
    ensures Advances(s, TerminateRuntime(s, r, report))
    ensures Advances(s, Removed(TerminateRuntime(s, r, report), r.id))
  {
    var dk := if r.kind.Inference? || r.kind.Pod? then RemoveId(s.docker, r.container) else s.docker;
    DockerAdvances(s, dk);
    SavedAdvances(FreedGpus(s, r.id).(docker := dk), r.(status := Terminated));
    RemovedAdvances(TerminateRuntime(s, r, report), r.id);
  }

  lemma SuspendAdvances(s: State, r: Record)
    requires FreshIds(s) && Issued(r.container, s.docker.nextId)
    ensures Advances(s, SuspendRuntime(s, r))
  {
    DockerAdvances(s, SuspendedDocker(s.docker, r));
    SavedAdvances(FreedGpus(s, r.id).(docker := SuspendedDocker(s.docker, r)), SuspendedRecord(r));
  }

  lemma ContainerStartAdvances(cfg: Config, s: State, r: Record)
    requires FreshIds(s) && !r.kind.Vm?
    ensures Advances(s, StartBackend(cfg, s, r, true))
  {
    var cleaned := RemoveNamed(s.docker, r.id, r.kind);
    var run := RunNew(cleaned, Container(r.id, r.kind, PassedThrough(cfg, r), true));
    DockerAdvances(s, run);
    SavedAdvances(s.(docker := run), r.(status := Ready, container := Some(cleaned.nextId)));
  }

  lemma StartBackendAdvances(cfg: Config, s: State, r: Record, starts: bool)
    requires FreshIds(s) && Issued(r.container, s.docker.nextId)
    ensures Advances(s, StartBackend(cfg, s, r, starts))
  {
    if !starts {
      var cleaned := if r.kind.Vm? then s.docker else RemoveNamed(s.docker, r.id, r.kind);
      DockerAdvances(s, cleaned);
      FailAdvances(s.(docker := cleaned), r);
    } else if r.kind.Vm? {
      SavedAdvances(s, r.(status := Ready, vm := true));
    } else {
      ContainerStartAdvances(cfg, s, r);
    }
  }

  lemma LaunchAdvances(cfg: Config, s: State, r: Record, w: Workload, gpus: nat, devices: seq<int>, a: Answers)
    requires FreshIds(s) && Issued(r.container, s.docker.nextId)
    ensures Advances(s, Launch(cfg, s, r, w, gpus, devices, a).state)
  {
    var named := Equipped(cfg, r, w, gpus, devices);
    match if r.kind.Vm? then Prepared else a.preparation
    case Prepared =>
      var starting := named.(status := Starting);
      SavedAdvances(s, starting);
      StartBackendAdvances(cfg, Saved(s, starting), starting, a.backendStarts);
    case DeclaredError => FailAdvances(s, if r.kind.Inference? then named else r);
    case UnexpectedError =>
  }

  lemma GrantAdvances(cfg: Config, s: State, r: Record, w: Workload, devices: seq<int>, after: Allocations, a: Answers)
    requires FreshIds(s) && Issued(r.container, s.docker.nextId)
    ensures Advances(s, Launch(cfg, s.(alloc := after), r, w, GpusWanted(r.kind, w), devices, a).state)
  {
    LaunchAdvances(cfg, s.(alloc := after), r, w, GpusWanted(r.kind, w), devices, a);
  }

  lemma StartAdvances(cfg: Config, s: State, r: Record, w: Workload, a: Answers)
    requires FreshIds(s) && Issued(r.container, s.docker.nextId)
    ensures Advances(s, StartRuntime(cfg, s, r, w, a).state)
  {
    FailAdvances(s, r);
    match StartGrant(cfg, s, r, w, a)
    case Refused =>
    case Granted(devices, after) =>
      GrantAdvances(cfg, s, r, w, devices, after, a);
  }

  lemma RestartAdvances(cfg: Config, s: State, r: Record, w: Workload, a: Answers)
    requires FreshIds(s) && Issued(r.container, s.docker.nextId)
    ensures Advances(s, StartRuntime(cfg, Saved(s, r), r, w, a).state)
  {
    SavedAdvances(s, r);
    StartAdvances(cfg, Saved(s, r), r, w, a);
  }

  lemma DispatchAdvances(cfg: Config, s: State, lease: Lease, a: Answers)
    requires FreshIds(s)
    ensures Advances(s, DispatchGuarded(cfg, s, lease, a))
  {
    if a.workload.Found? {
      var w := a.workload.workload;
      var r := FreshRecord(lease, w);
      if w.kind.Unsupported? {
        SavedAdvances(s, r);
        FailAdvances(Saved(s, r), r);
      } else {
        RestartAdvances(cfg, s, r, w, a);
        assert Dispatch(cfg, s, lease, a) == StartRuntime(cfg, Saved(s, r), r, w, a);
      }
    }
  }

  lemma ResumePodAdvances(s: State, r: Record, devices: seq<int>, a: Answers)
    requires FreshIds(s) && Issued(r.container, s.docker.nextId)
    ensures Advances(s, ResumePod(s, r, devices, a))
  {
    var r1 := r.(gpuDevices := devices, gpuCount := Some(ResumeGpuCount(r)));
    if PodResumes(s.docker, r, a) {
      var dk := SetRunning(s.docker, r.container, true);
      DockerAdvances(s, dk);
      SavedAdvances(s.(docker := dk), r1.(status := Ready));
    } else {
      SavedAdvances(FreedGpus(s, r.id), r1.(status := Suspended));
    }
  }

  lemma ResumeAdvances(cfg: Config, s: State, r: Record, a: Answers)
    requires FreshIds(s) && Issued(r.container, s.docker.nextId)
    ensures Advances(s, ResumeRuntime(cfg, s, r, a).state)
  {
    match ResumeGrant(cfg, s, r, a)
    case Refused =>
    case Granted(devices, after) =>
      var s1 := s.(alloc := after);
      if r.kind.Pod? {
        ResumePodAdvances(s1, r, devices, a);
      } else if a.workload.Found? {
        SavedAdvances(FreedGpus(s1, r.id), r.(status := Accepted));
        RestartAdvances(cfg, FreedGpus(s1, r.id), r.(status := Accepted), a.workload.workload, a);
      }
  }

  lemma HandleLeaseAdvances(cfg: Config, s: State, lease: Lease, a: Answers)
    requires FreshIds(s) && WellFormed(s.store)
    ensures Advances(s, HandleLease(cfg, s, lease, a).state)
  {
    match Get(s.store, lease.deployment)
    case None => DispatchAdvances(cfg, s, lease, a);
    case Some(r) =>
      assert r.id == lease.deployment;
      if lease.suspended {
        SuspendAdvances(s, r);
      } else if r.status.Suspended? {
        ResumeAdvances(cfg, s, r, a);
      } else {
        TerminateAdvances(s, r, false);
        DispatchAdvances(cfg, Removed(TerminateRuntime(s, r, false), r.id), lease, a);
      }
  }

  lemma CleanupOneAdvances(s: State, d: string, active: set<string>, fleet: set<string>, dep: DeploymentAnswer)
    requires FreshIds(s) && WellFormed(s.store)
    ensures Advances(s, CleanupOne(s, d, active, fleet, dep))
  {
    if Get(s.store, d).Some? {
      var r := s.store.runtimes[d];
      assert r.id == d;
      TerminateAdvances(s, r, true);
      TerminateAdvances(s, r, d !in fleet);
    }
  }

  lemma RecoverOneAdvances(s: State, d: string, dep: DeploymentAnswer)
    requires FreshIds(s)
    ensures Advances(s, RecoverOne(s, d, dep))
  {
    if Get(s.store, d).Some? {
      TerminateAdvances(s, s.store.runtimes[d], true);
      TerminateAdvances(s, s.store.runtimes[d], false);
    }
  }

  // ------------------------------------------------------------- passes and runs

  ghost predicate Sane(cfg: Config, s: State) {
    Exclusive(cfg, s) && FreshIds(s)
  }

  lemma ReconcileStaysSane(cfg: Config, s: State, inp: PassInput)
    requires Sane(cfg, s)
    ensures Sane(cfg, Reconcile(cfg, s, inp)) && s.docker.nextId <= Reconcile(cfg, s, inp).docker.nextId
  {
    var mine := Mine(cfg, Leases(inp));
    var active, fleet := Deployments(mine), Deployments(Leases(inp));
    var P := (x: State) => Sane(cfg, x) && s.docker.nextId <= x.docker.nextId;
    forall x: State, j: nat | j < |mine| && P(x) ensures P(HandleLease(cfg, x, mine[j], inp.answers(j)).state) {
      HandleLeaseKeeps(cfg, x, mine[j], inp.answers(j));
      HandleLeaseAdvances(cfg, x, mine[j], inp.answers(j));
    }
    forall x: State, d | P(x) ensures P(CleanupOne(x, d, active, fleet, inp.deployment(d))) {
      CleanupOneKeeps(cfg, x, d, active, fleet, inp.deployment(d));
      CleanupOneAdvances(x, d, active, fleet, inp.deployment(d));
    }
    ReconcileKeeps(cfg, s, inp, P);
  }

  lemma RecoverStaysSane(cfg: Config, s: State, dep: string -> DeploymentAnswer)
    requires Sane(cfg, s)
    ensures Sane(cfg, Recover(s, dep)) && s.docker.nextId <= Recover(s, dep).docker.nextId
  {
    var P := (x: State) => Sane(cfg, x) && s.docker.nextId <= x.docker.nextId;
    forall x: State, d | P(x) ensures P(RecoverOne(x, d, dep(d))) {
      RecoverOneKeeps(cfg, x, d, dep(d));
      RecoverOneAdvances(x, d, dep(d));
    }
    RecoverLoopKeeps(s, s.store.order, dep, 0, P);
  }

  lemma CrashStaysFresh(s: State, s': State, k: nat, world: Docker, n: nat)
    requires FreshIds(s) && FreshIds(s') && s.docker.nextId <= s'.docker.nextId && Appends(s, s')
    ensures FreshIds(CrashBetween(s, s', k, world, n))
  {
    var c := CrashBetween(s, s', k, world, n);
    assert AllIssued(s.store, c.docker.nextId);
    forall i | 0 <= i < |c.saves| ensures AllIssued(c.saves[i], c.docker.nextId) {
      assert c.saves[i] == s'.saves[i];
    }
  }

  lemma StepStaysSane(cfg: Config, s: State, e: Event)
    requires Sane(cfg, s)
    ensures Sane(cfg, Step(cfg, s, e))
  {
    StepKeepsExclusive(cfg, s, e);
    match e
    case ReconcilePass(inp) => ReconcileStaysSane(cfg, s, inp);
    case RecoveryPass(dep) => RecoverStaysSane(cfg, s, dep);
    case UserTermination(d) =>
      if Get(s.store, d).Some? {
        TerminateAdvances(s, s.store.runtimes[d], true);
      }
    case HeartbeatTick(_) =>
    case QuietRestart =>
    case CrashInReconcile(inp, k, world, n) =>
      PassOnlyAppends(cfg, s, inp);
      ReconcileStaysSane(cfg, s, inp);
      CrashStaysFresh(s, Reconcile(cfg, s, inp), k, world, n);
    case CrashInRecovery(dep, k, world, n) =>
      RecoveryOnlyAppends(s, dep);
      RecoverStaysSane(cfg, s, dep);
      CrashStaysFresh(s, Recover(s, dep), k, world, n);
  }

  // Over every run, crashes included, whatever containers they leave behind.
  lemma {:induction false} EveryRunIsSane(cfg: Config, s: State, events: seq<Event>)
    requires Sane(cfg, s)
    ensures Sane(cfg, Run(cfg, s, events))
    decreases |events|
  {
    if events != [] {
      StepStaysSane(cfg, s, events[0]);
      EveryRunIsSane(cfg, Step(cfg, s, events[0]), events[1..]);
    }
  }

  lemma EmptyIsSane(cfg: Config)
    ensures Sane(cfg, EMPTY)
  {
    EmptyIsOk(cfg);
  }
}
