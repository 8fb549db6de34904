/** Without a clash of names every ready pod or replica, and every suspended pod, has
    its container. */
module LiveContainers {
  import opened Common
  import opened Repository
  import opened NodeModel
  import opened Loops
  import opened Exclusivity
  import opened Containers
  import opened Steps
  import opened Runs
  import opened Suspension

  predicate NeedsContainer(r: Record) {
    (r.kind.Pod? && (r.status.Ready? || r.status.Suspended?)) || (r.kind.Inference? && r.status.Ready?)
  }

  // Between passes no start is half-way, so nothing is suspended before it ran.
  ghost predicate AliveAt(s: State, d: string) {
    match Get(s.store, d)
    case None => true
    case Some(r) =>
      && !r.status.Starting?
      && (NeedsContainer(r) ==> r.container.Some? && r.container.value in s.docker.containers)
  }

  ghost predicate Alive(s: State) {
    forall d :: AliveAt(s, d)
  }

  // No two of these deployments share a container name.
  ghost predicate NamesApart(ids: set<string>) {
    forall d, e | d in ids && e in ids && Name(d) == Name(e) :: d == e
  }

  // The deployments the node has to do with are among `ids`.
  ghost predicate Within(s: State, ids: set<string>) {
    s.store.runtimes.Keys <= ids
  }

  // ------------------------------------------------------------- the served one

  lemma BackendIsAlive(cfg: Config, s: State, r: Record, starts: bool)
    ensures AliveAt(StartBackend(cfg, s, r, starts), r.id)
  {}

  lemma LaunchIsAlive(cfg: Config, s: State, r: Record, w: Workload, gpus: nat, devices: seq<int>, a: Answers)
    requires r.container.None? && r.status.Accepted? && Get(s.store, r.id) == Some(r)
    ensures AliveAt(Launch(cfg, s, r, w, gpus, devices, a).state, r.id)
  {
    var starting := Equipped(cfg, r, w, gpus, devices).(status := Starting);
    BackendIsAlive(cfg, Saved(s, starting), starting, a.backendStarts);
  }

  lemma StartIsAlive(cfg: Config, s: State, r: Record, w: Workload, a: Answers)
    requires r.container.None? && r.status.Accepted? && Get(s.store, r.id) == Some(r)
    ensures AliveAt(StartRuntime(cfg, s, r, w, a).state, r.id)
  {
    assert AliveAt(FailRuntime(s, r), r.id);
    match StartGrant(cfg, s, r, w, a)
    case Refused =>
    case Granted(devices, after) =>
      LaunchIsAlive(cfg, s.(alloc := after), r, w, GpusWanted(r.kind, w), devices, a);
  }

  lemma DispatchIsAlive(cfg: Config, s: State, lease: Lease, a: Answers)
    requires Get(s.store, lease.deployment).None?
    ensures AliveAt(DispatchGuarded(cfg, s, lease, a), lease.deployment)
  {
    if a.workload.Found? {
      var r := FreshRecord(lease, a.workload.workload);
      StartIsAlive(cfg, Saved(s, r), r, a.workload.workload, a);
    }
  }

  lemma ResumeStaysAlive(cfg: Config, s: State, r: Record, a: Answers)
    requires DockerOk(s) && AliveAt(s, r.id) && Get(s.store, r.id) == Some(r) && r.status.Suspended?
    ensures AliveAt(ResumeRuntime(cfg, s, r, a).state, r.id)
  {
    assert IdOk(s, r.id);
    match ResumeGrant(cfg, s, r, a)
    case Refused =>
    case Granted(devices, after) =>
      if !r.kind.Pod? && a.workload.Found? {
        var r1 := r.(status := Accepted);
        StartIsAlive(cfg, Saved(FreedGpus(s.(alloc := after), r.id), r1), r1, a.workload.workload, a);
      }
  }

  lemma SuspendStaysAlive(s: State, r: Record)
    requires DockerOk(s) && AliveAt(s, r.id) && Get(s.store, r.id) == Some(r) && Holding(r.status)
    ensures AliveAt(SuspendRuntime(s, r), r.id)
  {
    assert IdOk(s, r.id);
  }

  lemma OwnLeaseStaysAlive(cfg: Config, s: State, lease: Lease, a: Answers)
    requires NodeOk(cfg, s) && AliveAt(s, lease.deployment)
    ensures AliveAt(HandleLease(cfg, s, lease, a).state, lease.deployment)
  {
    match Get(s.store, lease.deployment)
    case None => DispatchIsAlive(cfg, s, lease, a);
    case Some(r) =>
      assert r.id == lease.deployment;
      if lease.suspended {
        if Holding(r.status) {
          SuspendStaysAlive(s, r);
        }
      } else if r.status.Suspended? {
        ResumeStaysAlive(cfg, s, r, a);
      } else if r.status.Accepted? || r.status.Starting? {
        DispatchIsAlive(cfg, Removed(TerminateRuntime(s, r, false), r.id), lease, a);
      }
  }

  // ------------------------------------------------------------------- the others

  lemma OtherStaysAlive(s: State, s': State, e: string, kinds: set<Kind>, d: string)
    requires DockerOk(s) && Serves(s, s', e) && Spares(s, s', e, kinds) && AliveAt(s, d) && e != d
    requires Name(e) != Name(d) || kinds == {}
    ensures AliveAt(s', d)
  {
    assert IdOk(s, d);
  }

  ghost predicate Intact(cfg: Config, s: State, ids: set<string>) {
    NodeOk(cfg, s) && Alive(s) && Within(s, ids)
  }

  lemma LeaseKeepsIntact(cfg: Config, s: State, lease: Lease, a: Answers, ids: set<string>)
    requires Intact(cfg, s, ids) && NamesApart(ids) && lease.deployment in ids
    ensures Intact(cfg, HandleLease(cfg, s, lease, a).state, ids)
  {
    var s' := HandleLease(cfg, s, lease, a).state;
    HandleLeaseKeeps(cfg, s, lease, a);
    HandleLeaseKeepsDocker(cfg, s, lease, a);
    HandleLeaseServes(cfg, s, lease, a);
    HandleLeaseSpares(cfg, s, lease, a);
    forall d ensures AliveAt(s', d) && (d in s'.store.runtimes ==> d in ids) {
      assert AliveAt(s, d);
      if d == lease.deployment {
        OwnLeaseStaysAlive(cfg, s, lease, a);
      } else {
        assert Get(s'.store, d) == Get(s.store, d);
        if d in ids {
          OtherStaysAlive(s, s', lease.deployment, KindsStarted(lease, a), d);
        }
      }
    }
  }

  // Terminations, cleanup and recovery remove by id only.
  lemma ByIdKeepsIntact(cfg: Config, s: State, s': State, e: string, ids: set<string>)
    requires Intact(cfg, s, ids) && NodeOk(cfg, s') && Serves(s, s', e) && Spares(s, s', e, {})
    requires AliveAt(s', e) && (Get(s'.store, e).Some? ==> Get(s.store, e).Some?)
    ensures Intact(cfg, s', ids)
  {
    forall d ensures AliveAt(s', d) && (d in s'.store.runtimes ==> d in ids) {
      assert AliveAt(s, d);
      if d != e {
        assert Get(s'.store, d) == Get(s.store, d);
        OtherStaysAlive(s, s', e, {}, d);
      }
    }
  }

  lemma EndingStaysAlive(s: State, r: Record, report: bool)
    ensures AliveAt(TerminateRuntime(s, r, report), r.id)
    ensures AliveAt(Removed(TerminateRuntime(s, r, report), r.id), r.id)
  {}

  lemma CleanedStaysAlive(s: State, d: string, active: set<string>, fleet: set<string>, dep: DeploymentAnswer)
    requires WellFormed(s.store) && AliveAt(s, d)
    ensures var s' := CleanupOne(s, d, active, fleet, dep);
            AliveAt(s', d) && (Get(s'.store, d).Some? ==> Get(s.store, d).Some?)
  {
    if Get(s.store, d).Some? {
      assert s.store.runtimes[d].id == d;
      EndingStaysAlive(s, s.store.runtimes[d], true);
      EndingStaysAlive(s, s.store.runtimes[d], d !in fleet);
    }
  }

  lemma RecoveredStaysAlive(s: State, d: string, dep: DeploymentAnswer)
    requires WellFormed(s.store) && AliveAt(s, d)
    ensures var s' := RecoverOne(s, d, dep);
            AliveAt(s', d) && (Get(s'.store, d).Some? ==> Get(s.store, d).Some?)
  {
    if Get(s.store, d).Some? {
      assert s.store.runtimes[d].id == d;
      EndingStaysAlive(s, s.store.runtimes[d], true);
      EndingStaysAlive(s, s.store.runtimes[d], false);
    }
  }

  lemma CleanupKeepsIntact(cfg: Config, s: State, d: string, active: set<string>, fleet: set<string>,
                           dep: DeploymentAnswer, ids: set<string>)
    requires Intact(cfg, s, ids)
    ensures Intact(cfg, CleanupOne(s, d, active, fleet, dep), ids)
  {
    assert AliveAt(s, d);
    CleanedStaysAlive(s, d, active, fleet, dep);
    CleanupOneKeeps(cfg, s, d, active, fleet, dep);
    CleanupOneKeepsDocker(cfg, s, d, active, fleet, dep);
    CleanupOneServes(s, d, active, fleet, dep);
    CleanupOneSpares(cfg, s, d, active, fleet, dep);
    ByIdKeepsIntact(cfg, s, CleanupOne(s, d, active, fleet, dep), d, ids);
  }

  lemma RecoverKeepsIntact(cfg: Config, s: State, d: string, dep: DeploymentAnswer, ids: set<string>)
    requires Intact(cfg, s, ids)
    ensures Intact(cfg, RecoverOne(s, d, dep), ids)
  {
    assert AliveAt(s, d);
    RecoveredStaysAlive(s, d, dep);
    RecoverOneKeeps(cfg, s, d, dep);
    RecoverOneKeepsDocker(cfg, s, d, dep);
    RecoverOneServes(s, d, dep);
    RecoverOneSpares(cfg, s, d, dep);
    ByIdKeepsIntact(cfg, s, RecoverOne(s, d, dep), d, ids);
  }

  lemma TerminationKeepsIntact(cfg: Config, s: State, d: string, ids: set<string>)
    requires Intact(cfg, s, ids)
    ensures Intact(cfg, UserTerminate(s, d), ids)
  {
    UserTerminateKeepsNode(cfg, s, d);
    if Get(s.store, d).Some? {
      var r := s.store.runtimes[d];
      assert r.id == d;
      TerminateServes(s, r, true);
      TerminateSpares(s, r, true);
      ByIdKeepsIntact(cfg, s, UserTerminate(s, d), d, ids);
    }
  }

  // -------------------------------------------------------------------- whole runs

  lemma ReconcileKeepsIntact(cfg: Config, s: State, inp: PassInput, ids: set<string>)
    requires Intact(cfg, s, ids) && NamesApart(ids) && Deployments(Mine(cfg, Leases(inp))) <= ids
    ensures Intact(cfg, Reconcile(cfg, s, inp), ids)
  {
    var mine := Mine(cfg, Leases(inp));
    var active, fleet := Deployments(mine), Deployments(Leases(inp));
    var P := (x: State) => Intact(cfg, x, ids);
    forall x: State, j: nat | j < |mine| && P(x) ensures P(HandleLease(cfg, x, mine[j], inp.answers(j)).state) {
      assert mine[j] in mine && mine[j].deployment in Deployments(mine);
      LeaseKeepsIntact(cfg, x, mine[j], inp.answers(j), ids);
    }
    forall x: State, d | P(x) ensures P(CleanupOne(x, d, active, fleet, inp.deployment(d))) {
      CleanupKeepsIntact(cfg, x, d, active, fleet, inp.deployment(d), ids);
    }
    ReconcileKeeps(cfg, s, inp, P);
  }

  ghost predicate Knows(cfg: Config, e: Event, ids: set<string>) {
    e.ReconcilePass? ==> Deployments(Mine(cfg, Leases(e.inp))) <= ids
  }

  lemma StepKeepsIntact(cfg: Config, s: State, e: Event, ids: set<string>)
    requires Intact(cfg, s, ids) && NamesApart(ids) && !IsCrash(e) && Knows(cfg, e, ids)
    ensures Intact(cfg, Step(cfg, s, e), ids)
  {
    match e
    case ReconcilePass(inp) => ReconcileKeepsIntact(cfg, s, inp, ids);
    case RecoveryPass(dep) =>
      var P := (x: State) => Intact(cfg, x, ids);
      forall x: State, d | P(x) ensures P(RecoverOne(x, d, dep(d))) {
        RecoverKeepsIntact(cfg, x, d, dep(d), ids);
      }
      RecoverLoopKeeps(s, s.store.order, dep, 0, P);
    case UserTermination(d) => TerminationKeepsIntact(cfg, s, d, ids);
    case HeartbeatTick(_) =>
    case QuietRestart =>
      RestartKeepsNode(cfg, s);
      forall d ensures AliveAt(Restart(s, s.store), d) {
        assert AliveAt(s, d);
      }
  }

  lemma {:induction false} EveryRunStaysIntact(cfg: Config, s: State, events: seq<Event>, ids: set<string>)
    requires Intact(cfg, s, ids) && NamesApart(ids) && forall e | e in events :: !IsCrash(e) && Knows(cfg, e, ids)
    ensures Intact(cfg, Run(cfg, s, events), ids)
    decreases |events|
  {
    if events != [] {
      assert events[0] in events;
      assert forall e | e in events[1..] :: e in events;
      StepKeepsIntact(cfg, s, events[0], ids);
      EveryRunStaysIntact(cfg, Step(cfg, s, events[0]), events[1..], ids);
    }
  }

  // For a fresh node: as long as the names of the deployments leased to it do not
  // clash, every ready pod or replica and every suspended pod has a container of its own.
  lemma ReadyRuntimesHaveContainers(cfg: Config, events: seq<Event>, ids: set<string>, d: string)
    requires NamesApart(ids) && forall e | e in events :: !IsCrash(e) && Knows(cfg, e, ids)
    ensures var s := Run(cfg, EMPTY, events);
            match Get(s.store, d)
            case None => true
            case Some(r) =>
              NeedsContainer(r) ==>
                && r.container.Some? && r.container.value in s.docker.containers
                && s.docker.containers[r.container.value].owner == d
  {
    EmptyIsOk(cfg);
    EveryRunStaysIntact(cfg, EMPTY, events, ids);
    var s := Run(cfg, EMPTY, events);
    assert AliveAt(s, d) && IdOk(s, d);
  }
}
