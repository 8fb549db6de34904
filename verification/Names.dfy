/** Container names: what it costs when two ids agree in their first twelve
    characters, and exactly when. */
module Names {
  import opened Common
  import opened Repository
  import opened NodeModel
  import opened Loops
  import opened Exclusivity
  import opened Containers
  import opened Steps
  import opened Runs
  import opened ContainerIds
  import opened Suspension

  // ------------------------------------------------------------ one docker rm -f

  // What a start means to remove: what is left of its own deployment.
  function RemoveOwned(dk: Docker, d: string, kind: Kind): Docker {
    dk.(containers := map c | c in dk.containers && !(dk.containers[c].owner == d && dk.containers[c].kind == kind)
                        :: dk.containers[c])
  }

  ghost predicate Clashes(dk: Docker, d: string, kind: Kind, c: nat) {
    c in dk.containers && dk.containers[c].owner != d && HasName(dk.containers[c], d, kind)
  }

  // Removing by name is removing by owner if and only if no container of that kind
  // belongs to another deployment with the same first twelve characters.
  lemma NamesAgreeIff(dk: Docker, d: string, kind: Kind)
    ensures RemoveNamed(dk, d, kind) == RemoveOwned(dk, d, kind) <==> forall c :: !Clashes(dk, d, kind, c)
  {
    var byName, byOwner := RemoveNamed(dk, d, kind).containers, RemoveOwned(dk, d, kind).containers;
    if forall c :: !Clashes(dk, d, kind, c) {
      forall c ensures c in byName <==> c in byOwner {
        assert !Clashes(dk, d, kind, c);
      }
      assert byName == byOwner;
    } else {
      var c :| Clashes(dk, d, kind, c);
      assert c in byOwner && c !in byName;
    }
  }

  // ------------------------------------------------------ when a pod is displaced

  // The state in which a lease's dispatch begins.
  function BeforeDispatch(s: State, d: string): State {
    match Get(s.store, d)
    case None => s
    case Some(r) => Removed(TerminateRuntime(s, r, false), d)
  }

  // Handling the lease gets as far as docker: nothing of it is settled, and ssh key,
  // devices and volume are there.
  ghost predicate RunsPod(cfg: Config, s: State, lease: Lease, a: Answers) {
    && StartsPod(lease, a)
    && (match Get(s.store, lease.deployment)
        case None => true
        case Some(r) => r.status.Accepted? || r.status.Starting?)
    && a.sshReady && a.preparation.Prepared?
    && var w := a.workload.workload;
    && StartGrant(cfg, BeforeDispatch(s, lease.deployment), FreshRecord(lease, w), w, a).Granted?
  }

  ghost predicate Displaces(cfg: Config, s: State, lease: Lease, a: Answers, d: string) {
    lease.deployment != d && Name(lease.deployment) == Name(d) && RunsPod(cfg, s, lease, a)
  }

  // The container goes, or it stays as it is.
  ghost predicate LostOrKept(dk: Docker, dk': Docker, c: nat, lost: bool) {
    if lost then c !in dk'.containers else c in dk.containers && Lookup(dk'.containers, c) == Some(dk.containers[c])
  }

  lemma DispatchDisplacesIff(cfg: Config, s: State, lease: Lease, a: Answers, c: nat)
    requires !lease.suspended && Get(s.store, lease.deployment).None?
    requires c in s.docker.containers && c < s.docker.nextId && s.docker.containers[c].kind.Pod?
    ensures LostOrKept(s.docker, DispatchGuarded(cfg, s, lease, a).docker, c,
                       RunsPod(cfg, s, lease, a) && Name(s.docker.containers[c].owner) == Name(lease.deployment))
  {
    if a.workload.Found? {
      var w := a.workload.workload;
      var r := FreshRecord(lease, w);
      StartDisplacesIff(cfg, Saved(s, r), r, w, a, c);
    }
  }

  lemma StartDisplacesIff(cfg: Config, s: State, r: Record, w: Workload, a: Answers, c: nat)
    requires c in s.docker.containers && c < s.docker.nextId && s.docker.containers[c].kind.Pod?
    ensures LostOrKept(s.docker, StartRuntime(cfg, s, r, w, a).state.docker, c,
                       && r.kind.Pod? && a.sshReady && a.preparation.Prepared? && StartGrant(cfg, s, r, w, a).Granted?
                       && Name(s.docker.containers[c].owner) == Name(r.id))
  {
    match StartGrant(cfg, s, r, w, a)
    case Refused =>
    case Granted(devices, after) =>
      LaunchDisplacesIff(cfg, s.(alloc := after), r, w, GpusWanted(r.kind, w), devices, a, c);
  }

  lemma LaunchDisplacesIff(cfg: Config, s: State, r: Record, w: Workload, gpus: nat, devices: seq<int>, a: Answers,
                           c: nat)
    requires c in s.docker.containers && c < s.docker.nextId && s.docker.containers[c].kind.Pod?
    ensures LostOrKept(s.docker, Launch(cfg, s, r, w, gpus, devices, a).state.docker, c,
                       r.kind.Pod? && a.preparation.Prepared? && Name(s.docker.containers[c].owner) == Name(r.id))
  {
    var starting := Equipped(cfg, r, w, gpus, devices).(status := Starting);
    BackendDisplacesIff(cfg, Saved(s, starting), starting, a.backendStarts, c);
  }

  lemma BackendDisplacesIff(cfg: Config, s: State, r: Record, starts: bool, c: nat)
    requires c in s.docker.containers && c < s.docker.nextId && s.docker.containers[c].kind.Pod?
    ensures LostOrKept(s.docker, StartBackend(cfg, s, r, starts).docker, c,
                       r.kind.Pod? && Name(s.docker.containers[c].owner) == Name(r.id))
  {}

  // The lease of another deployment costs a pod its container if and only if it runs a
  // pod under the same name.
  lemma PodIsDisplacedIff(cfg: Config, s: State, lease: Lease, a: Answers, d: string, c: nat, devices: set<int>)
    requires NodeOk(cfg, s) && SamePod(s, d, c, devices) && lease.deployment != d
    ensures LostOrKept(s.docker, HandleLease(cfg, s, lease, a).state.docker, c, Displaces(cfg, s, lease, a, d))
  {
    assert ContainerOk(s, c);
    match Get(s.store, lease.deployment)
    case None =>
      if !lease.suspended {
        DispatchDisplacesIff(cfg, s, lease, a, c);
      }
    case Some(r) =>
      assert r.id == lease.deployment;
      if !lease.suspended && (r.status.Accepted? || r.status.Starting?) {
        TerminateSpares(s, r, false);
        DispatchDisplacesIff(cfg, BeforeDispatch(s, r.id), lease, a, c);
      } else {
        SettledSparesPod(cfg, s, lease, a, r, c);
      }
  }

  lemma SettledSparesPod(cfg: Config, s: State, lease: Lease, a: Answers, r: Record, c: nat)
    requires NodeOk(cfg, s) && Get(s.store, lease.deployment) == Some(r) && r.id == lease.deployment
    requires lease.suspended || !(r.status.Accepted? || r.status.Starting?)
    requires c in s.docker.containers && s.docker.containers[c].owner != r.id && s.docker.containers[c].kind.Pod?
    ensures LostOrKept(s.docker, HandleLease(cfg, s, lease, a).state.docker, c, false)
  {
    SuspendSpares(s, r);
    ResumeSpares(cfg, s, r, a);
  }

  // ------------------------------------------------------------- over one pass

  // Some lease of the loop, when its turn comes, runs a pod under the name of d's.
  ghost predicate Displaced(cfg: Config, s: State, mine: seq<Lease>, answers: nat -> Answers, i: nat, d: string)
    requires i <= |mine|
    decreases |mine| - i
  {
    i < |mine| &&
    (Displaces(cfg, s, mine[i], answers(i), d) ||
     match HandleLease(cfg, s, mine[i], answers(i))
     case Done(t) => Displaced(cfg, t, mine, answers, i + 1, d)
     case Crashed(_) => false)
  }

  // What the loop needs of the node, and what a lost container keeps it from.
  ghost predicate Whole(cfg: Config, s: State) {
    NodeOk(cfg, s) && FreshIds(s)
  }

  ghost predicate Gone(s: State, c: nat) {
    c !in s.docker.containers && c < s.docker.nextId
  }

  lemma LeaseStaysWhole(cfg: Config, s: State, lease: Lease, a: Answers, c: nat)
    requires Whole(cfg, s)
    ensures Whole(cfg, HandleLease(cfg, s, lease, a).state)
    ensures Gone(s, c) ==> Gone(HandleLease(cfg, s, lease, a).state, c)
    ensures c < s.docker.nextId ==> c < HandleLease(cfg, s, lease, a).state.docker.nextId
  {
    HandleLeaseKeeps(cfg, s, lease, a);
    HandleLeaseKeepsDocker(cfg, s, lease, a);
    HandleLeaseAdvances(cfg, s, lease, a);
  }

  lemma {:induction false} GoneForTheLoop(cfg: Config, s: State, mine: seq<Lease>, answers: nat -> Answers, i: nat,
                                          c: nat)
    requires i <= |mine| && Whole(cfg, s) && Gone(s, c)
    ensures var t := LeaseLoop(cfg, s, mine, answers, i).state; Whole(cfg, t) && Gone(t, c)
    decreases |mine| - i
  {
    if i < |mine| {
      LeaseStaysWhole(cfg, s, mine[i], answers(i), c);
      if HandleLease(cfg, s, mine[i], answers(i)).Done? {
        GoneForTheLoop(cfg, HandleLease(cfg, s, mine[i], answers(i)).state, mine, answers, i + 1, c);
      }
    }
  }

  lemma UndisplacedIsKept(cfg: Config, s: State, lease: Lease, a: Answers, d: string, c: nat, devices: set<int>)
    requires Whole(cfg, s) && SamePod(s, d, c, devices) && !Displaces(cfg, s, lease, a, d)
    ensures SamePod(HandleLease(cfg, s, lease, a).state, d, c, devices)
  {
    if lease.deployment == d {
      OwnLeaseKeepsPod(cfg, s, lease, a, c, devices);
    } else {
      PodIsDisplacedIff(cfg, s, lease, a, d, c, devices);
      HandleLeaseServes(cfg, s, lease, a);
    }
  }

  lemma {:induction false} LoopDisplacesIff(cfg: Config, s: State, mine: seq<Lease>, answers: nat -> Answers, i: nat,
                                            d: string, c: nat, devices: set<int>)
    requires i <= |mine| && Whole(cfg, s) && SamePod(s, d, c, devices)
    ensures var t := LeaseLoop(cfg, s, mine, answers, i).state;
            Whole(cfg, t) && (if Displaced(cfg, s, mine, answers, i, d) then Gone(t, c) else SamePod(t, d, c, devices))
    decreases |mine| - i
  {
    if i < |mine| {
      var l, a := mine[i], answers(i);
      var o := HandleLease(cfg, s, l, a);
      LeaseStaysWhole(cfg, s, l, a, c);
      if Displaces(cfg, s, l, a, d) {
        PodIsDisplacedIff(cfg, s, l, a, d, c, devices);
        if o.Done? {
          GoneForTheLoop(cfg, o.state, mine, answers, i + 1, c);
        }
      } else {
        UndisplacedIsKept(cfg, s, l, a, d, c, devices);
        if o.Done? {
          LoopDisplacesIff(cfg, o.state, mine, answers, i + 1, d, c, devices);
        }
      }
    }
  }

  lemma CleanupStaysWhole(cfg: Config, s: State, e: string, active: set<string>, fleet: set<string>,
                          dep: DeploymentAnswer)
    requires Whole(cfg, s)
    ensures Whole(cfg, CleanupOne(s, e, active, fleet, dep))
    ensures Ages(s.docker, CleanupOne(s, e, active, fleet, dep).docker)
  {
    CleanupOneKeeps(cfg, s, e, active, fleet, dep);
    CleanupOneKeepsDocker(cfg, s, e, active, fleet, dep);
    CleanupOneAdvances(s, e, active, fleet, dep);
  }

  // The cleanup spares a pod that is leased here, or suspended and not known to be
  // terminated, whatever it is called.
  lemma CleanupSparesPod(cfg: Config, s: State, x: State, inp: PassInput, e: string, d: string, c: nat,
                         devices: set<int>)
    requires Whole(cfg, x) && SamePod(x, d, c, devices) && Get(x.store, d) == Get(s.store, d)
    requires var active := Deployments(Mine(cfg, Leases(inp)));
             d in active || (s.store.runtimes[d].status.Suspended? && inp.deployment(d) != Exists(DTerminated))
    ensures var y := CleanupOne(x, e, Deployments(Mine(cfg, Leases(inp))), Deployments(Leases(inp)), inp.deployment(e));
            SamePod(y, d, c, devices) && Get(y.store, d) == Get(s.store, d)
  {
    var active, fleet := Deployments(Mine(cfg, Leases(inp))), Deployments(Leases(inp));
    if e != d {
      CleanupOneServes(x, e, active, fleet, inp.deployment(e));
      CleanupOneSpares(cfg, x, e, active, fleet, inp.deployment(e));
      ServedPodIsKept(x, CleanupOne(x, e, active, fleet, inp.deployment(e)), e, {}, d, c, devices);
    }
  }

  lemma CleanupKeepsGone(cfg: Config, s: State, inp: PassInput, c: nat)
    requires Whole(cfg, s) && Gone(s, c)
    ensures Gone(Cleanup(cfg, s, inp), c)
  {
    var active, fleet := Deployments(Mine(cfg, Leases(inp))), Deployments(Leases(inp));
    var P := (x: State) => Whole(cfg, x) && Gone(x, c);
    forall x: State, e | P(x) ensures P(CleanupOne(x, e, active, fleet, inp.deployment(e))) {
      CleanupStaysWhole(cfg, x, e, active, fleet, inp.deployment(e));
    }
    CleanupLoopKeeps(s, s.store.order, active, fleet, inp.deployment, 0, P);
  }

  lemma CleanupKeepsPod(cfg: Config, s: State, inp: PassInput, d: string, c: nat, devices: set<int>)
    requires Whole(cfg, s) && SamePod(s, d, c, devices)
    requires d in Deployments(Mine(cfg, Leases(inp)))
             || (s.store.runtimes[d].status.Suspended? && inp.deployment(d) != Exists(DTerminated))
    ensures SamePod(Cleanup(cfg, s, inp), d, c, devices)
  {
    var active, fleet := Deployments(Mine(cfg, Leases(inp))), Deployments(Leases(inp));
    var P := (x: State) => Whole(cfg, x) && SamePod(x, d, c, devices) && Get(x.store, d) == Get(s.store, d);
    forall x: State, e | P(x) ensures P(CleanupOne(x, e, active, fleet, inp.deployment(e))) {
      CleanupStaysWhole(cfg, x, e, active, fleet, inp.deployment(e));
      CleanupSparesPod(cfg, s, x, inp, e, d, c, devices);
    }
    CleanupLoopKeeps(s, s.store.order, active, fleet, inp.deployment, 0, P);
  }

  lemma UnleasedIsUntouched(cfg: Config, s: State, mine: seq<Lease>, answers: nat -> Answers, d: string)
    requires Exclusive(cfg, s) && d !in Deployments(mine)
    ensures Get(LeaseLoop(cfg, s, mine, answers, 0).state.store, d) == Get(s.store, d)
  {
    var P := (x: State) => Exclusive(cfg, x) && Get(x.store, d) == Get(s.store, d);
    forall x: State, j: nat | j < |mine| && P(x) ensures P(HandleLease(cfg, x, mine[j], answers(j)).state) {
      assert mine[j] in mine;
      HandleLeaseKeeps(cfg, x, mine[j], answers(j));
      HandleLeaseServes(cfg, x, mine[j], answers(j));
    }
    LeaseLoopKeeps(cfg, s, mine, answers, 0, P);
  }

  // A suspended pod that its control plane has not given up comes out of a pass with
  // its container if and only if no lease of the pass runs a pod under its name;
  // otherwise the container is gone.
  lemma PodSurvivesPassIff(cfg: Config, s: State, inp: PassInput, d: string, c: nat, devices: set<int>)
    requires Whole(cfg, s) && SamePod(s, d, c, devices) && s.store.runtimes[d].status.Suspended?
    requires HasOwnLease(cfg, inp, d) || inp.deployment(d) != Exists(DTerminated)
    ensures var t := Reconcile(cfg, s, inp);
            if Displaced(cfg, s, Mine(cfg, Leases(inp)), inp.answers, 0, d) then Gone(t, c)
            else SamePod(t, d, c, devices)
  {
    var mine := Mine(cfg, Leases(inp));
    var o := LeaseLoop(cfg, s, mine, inp.answers, 0);
    LoopDisplacesIff(cfg, s, mine, inp.answers, 0, d, c, devices);
    OwnDeployments(cfg, inp, d);
    if d !in Deployments(mine) {
      UnleasedIsUntouched(cfg, s, mine, inp.answers, d);
    }
    if o.Done? {
      if Displaced(cfg, s, mine, inp.answers, 0, d) {
        CleanupKeepsGone(cfg, o.state, inp, c);
      } else {
        CleanupKeepsPod(cfg, o.state, inp, d, c, devices);
      }
    }
  }

  // ------------------------------------------------------------ a pod that lost it

  // As long as its record names that container it is not in service.
  ghost predicate OutOfService(s: State, d: string, c: nat) {
    && Gone(s, c)
    && match Get(s.store, d)
       case None => true
       case Some(r) => r.container == Some(c) ==>
                         r.kind.Pod? && (r.status.Suspended? || r.status.Failed? || r.status.Terminated?)
  }

  lemma BackendLeavesOut(cfg: Config, s: State, r: Record, starts: bool, c: nat)
    requires Gone(s, c) && r.container.None?
    ensures OutOfService(StartBackend(cfg, s, r, starts), r.id, c)
  {}

  lemma LaunchLeavesOut(cfg: Config, s: State, r: Record, w: Workload, gpus: nat, devices: seq<int>, a: Answers, c: nat)
    requires Gone(s, c) && r.container.None? && Get(s.store, r.id) == Some(r)
    ensures OutOfService(Launch(cfg, s, r, w, gpus, devices, a).state, r.id, c)
  {
    var starting := Equipped(cfg, r, w, gpus, devices).(status := Starting);
    BackendLeavesOut(cfg, Saved(s, starting), starting, a.backendStarts, c);
  }

  lemma FailLeavesOut(s: State, r: Record, c: nat)
    requires Gone(s, c) && r.container.None?
    ensures OutOfService(FailRuntime(s, r), r.id, c)
  {}

  lemma StartLeavesOut(cfg: Config, s: State, r: Record, w: Workload, a: Answers, c: nat)
    requires Gone(s, c) && r.container.None? && Get(s.store, r.id) == Some(r)
    ensures OutOfService(StartRuntime(cfg, s, r, w, a).state, r.id, c)
  {
    FailLeavesOut(s, r, c);
    match StartGrant(cfg, s, r, w, a)
    case Refused =>
    case Granted(devices, after) =>
      LaunchLeavesOut(cfg, s.(alloc := after), r, w, GpusWanted(r.kind, w), devices, a, c);
  }

  lemma DispatchLeavesOut(cfg: Config, s: State, lease: Lease, a: Answers, c: nat)
    requires Gone(s, c) && Get(s.store, lease.deployment).None?
    ensures OutOfService(DispatchGuarded(cfg, s, lease, a), lease.deployment, c)
  {
    if a.workload.Found? {
      var r := FreshRecord(lease, a.workload.workload);
      StartLeavesOut(cfg, Saved(s, r), r, a.workload.workload, a, c);
    }
  }

  lemma ResumeLeavesOut(cfg: Config, s: State, r: Record, a: Answers, c: nat)
    requires Whole(cfg, s) && OutOfService(s, r.id, c) && Get(s.store, r.id) == Some(r) && r.status.Suspended?
    ensures OutOfService(ResumeRuntime(cfg, s, r, a).state, r.id, c)
  {
    assert IdOk(s, r.id);
    match ResumeGrant(cfg, s, r, a)
    case Refused =>
    case Granted(devices, after) =>
      if !r.kind.Pod? && a.workload.Found? {
        var r1 := r.(status := Accepted);
        var s1 := Saved(FreedGpus(s.(alloc := after), r.id), r1);
        StartLeavesOut(cfg, s1, r1, a.workload.workload, a, c);
      }
  }

  lemma OwnLeaseLeavesOut(cfg: Config, s: State, lease: Lease, a: Answers, c: nat)
    requires Whole(cfg, s) && OutOfService(s, lease.deployment, c)
    ensures OutOfService(HandleLease(cfg, s, lease, a).state, lease.deployment, c)
  {
    LeaseStaysWhole(cfg, s, lease, a, c);
    match Get(s.store, lease.deployment)
    case None => DispatchLeavesOut(cfg, s, lease, a, c);
    case Some(r) =>
      assert r.id == lease.deployment;
      if !lease.suspended && r.status.Suspended? {
        ResumeLeavesOut(cfg, s, r, a, c);
      } else if !lease.suspended && (r.status.Accepted? || r.status.Starting?) {
        DispatchLeavesOut(cfg, BeforeDispatch(s, r.id), lease, a, c);
      }
  }

  lemma OthersLeaveOut(s: State, s': State, e: string, d: string, c: nat)
    requires OutOfService(s, d, c) && Serves(s, s', e) && Ages(s.docker, s'.docker) && e != d
    ensures OutOfService(s', d, c)
  {}

  ghost predicate Lost(cfg: Config, s: State, d: string, c: nat) {
    Whole(cfg, s) && OutOfService(s, d, c)
  }

  lemma LeaseKeepsLost(cfg: Config, s: State, lease: Lease, a: Answers, d: string, c: nat)
    requires Lost(cfg, s, d, c)
    ensures Lost(cfg, HandleLease(cfg, s, lease, a).state, d, c)
  {
    LeaseStaysWhole(cfg, s, lease, a, c);
    if lease.deployment == d {
      OwnLeaseLeavesOut(cfg, s, lease, a, c);
    } else {
      HandleLeaseAdvances(cfg, s, lease, a);
      HandleLeaseServes(cfg, s, lease, a);
      OthersLeaveOut(s, HandleLease(cfg, s, lease, a).state, lease.deployment, d, c);
    }
  }

  lemma CleanupKeepsLost(cfg: Config, s: State, e: string, active: set<string>, fleet: set<string>,
                         dep: DeploymentAnswer, d: string, c: nat)
    requires Lost(cfg, s, d, c)
    ensures Lost(cfg, CleanupOne(s, e, active, fleet, dep), d, c)
  {
    CleanupStaysWhole(cfg, s, e, active, fleet, dep);
    if e != d {
      CleanupOneServes(s, e, active, fleet, dep);
      OthersLeaveOut(s, CleanupOne(s, e, active, fleet, dep), e, d, c);
    }
  }

  lemma RecoverKeepsLost(cfg: Config, s: State, e: string, dep: DeploymentAnswer, d: string, c: nat)
    requires Lost(cfg, s, d, c)
    ensures Lost(cfg, RecoverOne(s, e, dep), d, c)
  {
    RecoverOneKeeps(cfg, s, e, dep);
    RecoverOneKeepsDocker(cfg, s, e, dep);
    RecoverOneAdvances(s, e, dep);
    if e != d {
      RecoverOneServes(s, e, dep);
      OthersLeaveOut(s, RecoverOne(s, e, dep), e, d, c);
    }
  }

  lemma TerminationKeepsLost(cfg: Config, s: State, e: string, d: string, c: nat)
    requires Lost(cfg, s, d, c)
    ensures Lost(cfg, UserTerminate(s, e), d, c)
  {
    UserTerminateKeepsNode(cfg, s, e);
    if Get(s.store, e).Some? {
      var r := s.store.runtimes[e];
      assert r.id == e;
      TerminateAdvances(s, r, true);
      TerminateServes(s, r, true);
      if e != d {
        OthersLeaveOut(s, UserTerminate(s, e), e, d, c);
      }
    }
  }

  lemma StepKeepsLost(cfg: Config, s: State, e: Event, d: string, c: nat)
    requires Lost(cfg, s, d, c) && !IsCrash(e)
    ensures Lost(cfg, Step(cfg, s, e), d, c)
  {
    var P := (x: State) => Lost(cfg, x, d, c);
    match e
    case ReconcilePass(inp) =>
      var mine := Mine(cfg, Leases(inp));
      var active, fleet := Deployments(mine), Deployments(Leases(inp));
      forall x: State, j: nat | j < |mine| && P(x) ensures P(HandleLease(cfg, x, mine[j], inp.answers(j)).state) {
        LeaseKeepsLost(cfg, x, mine[j], inp.answers(j), d, c);
      }
      forall x: State, f | P(x) ensures P(CleanupOne(x, f, active, fleet, inp.deployment(f))) {
        CleanupKeepsLost(cfg, x, f, active, fleet, inp.deployment(f), d, c);
      }
      ReconcileKeeps(cfg, s, inp, P);
    case RecoveryPass(dep) =>
      forall x: State, f | P(x) ensures P(RecoverOne(x, f, dep(f))) {
        RecoverKeepsLost(cfg, x, f, dep(f), d, c);
      }
      RecoverLoopKeeps(s, s.store.order, dep, 0, P);
    case UserTermination(f) => TerminationKeepsLost(cfg, s, f, d, c);
    case HeartbeatTick(_) =>
    case QuietRestart => RestartKeepsNode(cfg, s);
  }

  // Once its container is gone, no answer of docker and no order of the control plane
  // brings the pod back: over every run not killed inside a pass, its record is never
  // ready again (unless it is terminated and started afresh, with another container).
  lemma LostPodNeverReturns(cfg: Config, s: State, events: seq<Event>, d: string, c: nat)
    requires Whole(cfg, s) && Gone(s, c) && forall e | e in events :: !IsCrash(e)
    requires Get(s.store, d).Some? && s.store.runtimes[d].kind.Pod? && s.store.runtimes[d].status.Suspended?
    requires s.store.runtimes[d].container == Some(c)
    ensures var o := Get(Run(cfg, s, events).store, d);
            o.Some? && o.value.container == Some(c) ==> !o.value.status.Ready?
  {
    LostThroughout(cfg, s, events, d, c);
  }

  lemma {:induction false} LostThroughout(cfg: Config, s: State, events: seq<Event>, d: string, c: nat)
    requires Lost(cfg, s, d, c) && forall e | e in events :: !IsCrash(e)
    ensures Lost(cfg, Run(cfg, s, events), d, c)
    decreases |events|
  {
    if events != [] {
      assert events[0] in events;
      assert forall e | e in events[1..] :: e in events;
      StepKeepsLost(cfg, s, events[0], d, c);
      LostThroughout(cfg, Step(cfg, s, events[0]), events[1..], d, c);
    }
  }
}
