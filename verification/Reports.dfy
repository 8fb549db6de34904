/** Only justified terminations are reported to the control plane, over every run. */
module Reports {
  import opened Common
  import opened GpuAllocation
  import opened Repository
  import opened NodeModel
  import opened Loops
  import opened Containers
  import opened Exclusivity
  import opened Runs

  // Whatever s' reports beyond s, none of it is a termination.
  ghost predicate NoTermination(s: State, s': State) {
    && s.log <= s'.log
    && forall i | |s.log| <= i < |s'.log| :: !s'.log[i].state.DTerminated?
  }

  lemma BackendReportsNoTermination(cfg: Config, s: State, r: Record, starts: bool)
    ensures NoTermination(s, StartBackend(cfg, s, r, starts))
  {}

  lemma LaunchReportsNoTermination(cfg: Config, s: State, r: Record, w: Workload, gpus: nat, devices: seq<int>,
                                   a: Answers)
    ensures NoTermination(s, Launch(cfg, s, r, w, gpus, devices, a).state)
  {
    var starting := Equipped(cfg, r, w, gpus, devices).(status := Starting);
    BackendReportsNoTermination(cfg, Saved(s, starting), starting, a.backendStarts);
  }

  lemma FailureIsNoTermination(s: State, t: State, d: string)
    requires NoTermination(s, t)
    ensures NoTermination(s, Reported(t, d, DFailed))
  {}

  lemma StartReportsNoTermination(cfg: Config, s: State, r: Record, w: Workload, a: Answers)
    ensures NoTermination(s, StartRuntime(cfg, s, r, w, a).state)
  {
    match StartGrant(cfg, s, r, w, a)
    case Refused =>
    case Granted(devices, after) =>
      LaunchReportsNoTermination(cfg, s.(alloc := after), r, w, GpusWanted(r.kind, w), devices, a);
      assert NoTermination(s, Launch(cfg, s.(alloc := after), r, w, GpusWanted(r.kind, w), devices, a).state);
  }

  lemma SavedStartReportsNoTermination(cfg: Config, s: State, r: Record, w: Workload, a: Answers)
    ensures NoTermination(s, StartRuntime(cfg, Saved(s, r), r, w, a).state)
  {
    StartReportsNoTermination(cfg, Saved(s, r), r, w, a);
  }

  lemma DispatchReportsNoTermination(cfg: Config, s: State, lease: Lease, a: Answers)
    ensures NoTermination(s, DispatchGuarded(cfg, s, lease, a))
  {
    if a.workload.Found? {
      var w := a.workload.workload;
      var r := FreshRecord(lease, w);
      if w.kind.Unsupported? {
        assert Dispatch(cfg, s, lease, a) == Done(FailRuntime(Saved(s, r), r));
      } else {
        var o := StartRuntime(cfg, Saved(s, r), r, w, a);
        assert Dispatch(cfg, s, lease, a) == o;
        SavedStartReportsNoTermination(cfg, s, r, w, a);
        FailureIsNoTermination(s, o.state, lease.deployment);
      }
    }
  }

  lemma ResumeReportsNoTermination(cfg: Config, s: State, r: Record, a: Answers)
    ensures NoTermination(s, ResumeRuntime(cfg, s, r, a).state)
  {
    var g := ResumeGrant(cfg, s, r, a);
    if g.Granted? && !r.kind.Pod? && a.workload.Found? {
      var s1 := FreedGpus(s.(alloc := g.after), r.id);
      SavedStartReportsNoTermination(cfg, s1, r.(status := Accepted), a.workload.workload, a);
    }
  }

  // Starting, retrying, suspending and resuming never report a termination.
  lemma LeasesReportNoTermination(cfg: Config, s: State, lease: Lease, a: Answers)
    ensures NoTermination(s, HandleLease(cfg, s, lease, a).state)
  {
    match Get(s.store, lease.deployment)
    case None => DispatchReportsNoTermination(cfg, s, lease, a);
    case Some(r) =>
      if r.status.Suspended? {
        ResumeReportsNoTermination(cfg, s, r, a);
      } else {
        DispatchReportsNoTermination(cfg, Removed(TerminateRuntime(s, r, false), lease.deployment), lease, a);
      }
  }

  // The fetched lease list no longer has `d` anywhere in the fleet, or the control
  // plane already calls it terminated.
  ghost predicate GoneForReconcile(inp: PassInput, d: string) {
    d !in Deployments(Leases(inp)) || inp.deployment(d) == Exists(DTerminated)
  }

  predicate DeadForRecovery(dep: DeploymentAnswer) {
    dep == Exists(DTerminated) || dep == Exists(DFailed)
  }

  // What entitles an event to report that `d` is terminated.
  ghost predicate Entitles(e: Event, d: string) {
    match e
    case ReconcilePass(inp) => GoneForReconcile(inp, d)
    case CrashInReconcile(inp, _, _, _) => GoneForReconcile(inp, d)
    case RecoveryPass(dep) => DeadForRecovery(dep(d))
    case CrashInRecovery(dep, _, _, _) => DeadForRecovery(dep(d))
    case UserTermination(f) => d == f
    case HeartbeatTick(_) => false
    case QuietRestart => false
  }

  // Every termination reported beyond the first n entries is justified.
  ghost predicate Justified(s: State, n: nat, just: string -> bool) {
    && n <= |s.log|
    && forall i | n <= i < |s.log| && s.log[i].state.DTerminated? :: just(s.log[i].deployment)
  }

  lemma NoTerminationJustified(s: State, s': State, n: nat, just: string -> bool)
    requires Justified(s, n, just) && NoTermination(s, s')
    ensures Justified(s', n, just)
  {
    forall i | n <= i < |s'.log| && s'.log[i].state.DTerminated? ensures just(s'.log[i].deployment) {
      assert i < |s.log| && s'.log[i] == s.log[i];
    }
  }

  lemma CleanupOneJustified(s: State, d: string, active: set<string>, fleet: set<string>, dep: DeploymentAnswer,
                            n: nat, just: string -> bool)
    requires WellFormed(s.store) && Justified(s, n, just)
    requires d !in fleet || dep == Exists(DTerminated) ==> just(d)
    ensures Justified(CleanupOne(s, d, active, fleet, dep), n, just)
  {
    if Get(s.store, d).Some? {
      assert s.store.runtimes[d].id == d;
    }
  }

  lemma RecoverOneJustified(s: State, d: string, dep: DeploymentAnswer, n: nat, just: string -> bool)
    requires WellFormed(s.store) && Justified(s, n, just)
    requires DeadForRecovery(dep) ==> just(d)
    ensures Justified(RecoverOne(s, d, dep), n, just)
  {
    if Get(s.store, d).Some? {
      assert s.store.runtimes[d].id == d;
    }
  }

  lemma ReconcileReportsAreJustified(cfg: Config, s: State, inp: PassInput)
    requires Exclusive(cfg, s)
    ensures Justified(Reconcile(cfg, s, inp), |s.log|, d => GoneForReconcile(inp, d))
  {
    var just := (d: string) => GoneForReconcile(inp, d);
    var n := |s.log|;
    var P := (x: State) => Exclusive(cfg, x) && Justified(x, n, just);
    var mine := Mine(cfg, Leases(inp));
    forall x: State, j: nat | j < |mine| && P(x) ensures P(HandleLease(cfg, x, mine[j], inp.answers(j)).state) {
      HandleLeaseKeeps(cfg, x, mine[j], inp.answers(j));
      LeasesReportNoTermination(cfg, x, mine[j], inp.answers(j));
      NoTerminationJustified(x, HandleLease(cfg, x, mine[j], inp.answers(j)).state, n, just);
    }
    var active, fleet := Deployments(mine), Deployments(Leases(inp));
    forall ids ensures EachCleanupKeeps(ids, active, fleet, inp.deployment, P) {
      forall x: State, d | d in ids && P(x) ensures P(CleanupOne(x, d, active, fleet, inp.deployment(d))) {
        CleanupOneKeeps(cfg, x, d, active, fleet, inp.deployment(d));
        CleanupOneJustified(x, d, active, fleet, inp.deployment(d), n, just);
      }
    }
    ReconcileKeeps(cfg, s, inp, P);
  }

  lemma RecoveryReportsAreJustified(cfg: Config, s: State, dep: string -> DeploymentAnswer)
    requires Exclusive(cfg, s)
    ensures Justified(Recover(s, dep), |s.log|, d => DeadForRecovery(dep(d)))
  {
    var just := (d: string) => DeadForRecovery(dep(d));
    var n := |s.log|;
    var P := (x: State) => Exclusive(cfg, x) && Justified(x, n, just);
    forall x: State, d | d in s.store.order && P(x) ensures P(RecoverOne(x, d, dep(d))) {
      RecoverOneKeeps(cfg, x, d, dep(d));
      RecoverOneJustified(x, d, dep(d), n, just);
    }
    RecoverLoopKeeps(s, s.store.order, dep, 0, P);
  }

  lemma StepReportsAreJustified(cfg: Config, s: State, e: Event)
    requires Exclusive(cfg, s)
    ensures s.log <= Step(cfg, s, e).log
    ensures Justified(Step(cfg, s, e), |s.log|, d => Entitles(e, d))
  {
    if e.ReconcilePass? || e.CrashInReconcile? {
      PassOnlyAppends(cfg, s, e.inp);
      ReconcileReportsAreJustified(cfg, s, e.inp);
    } else if e.RecoveryPass? || e.CrashInRecovery? {
      RecoveryOnlyAppends(s, e.deployment);
      RecoveryReportsAreJustified(cfg, s, e.deployment);
    } else if e.UserTermination? && Get(s.store, e.d).Some? {
      assert s.store.runtimes[e.d].id == e.d;
    }
  }

  // The k-th event of the run is the one during which report i was made.
  ghost predicate MadeIn(cfg: Config, s: State, events: seq<Event>, i: nat, k: nat) {
    k < |events| && |Run(cfg, s, events[..k]).log| <= i < |Run(cfg, s, events[..k + 1]).log|
  }

  lemma LaterEvents(cfg: Config, s: State, events: seq<Event>, i: nat, k: nat)
    requires events != [] && MadeIn(cfg, Step(cfg, s, events[0]), events[1..], i, k)
    ensures MadeIn(cfg, s, events, i, k + 1)
  {
    assert events[..k + 1][1..] == events[1..][..k];
    assert events[..k + 2][1..] == events[1..][..k + 1];
  }

  // Over any run: every termination reported was entitled by the very event during
  // which it was reported.
  lemma {:induction false} EveryTerminationIsEntitled(cfg: Config, s: State, events: seq<Event>, i: nat)
    requires Exclusive(cfg, s)
    requires |s.log| <= i < |Run(cfg, s, events).log| && Run(cfg, s, events).log[i].state.DTerminated?
    ensures exists k: nat :: MadeIn(cfg, s, events, i, k) && Entitles(events[k], Run(cfg, s, events).log[i].deployment)
    decreases |events|
  {
    var s1 := Step(cfg, s, events[0]);
    var d := Run(cfg, s, events).log[i].deployment;
    StepReportsAreJustified(cfg, s, events[0]);
    StepKeepsExclusive(cfg, s, events[0]);
    if i < |s1.log| {
      LogOnlyGrows(cfg, s1, events[1..]);
      assert s1.log[i] == Run(cfg, s, events).log[i];
      assert events[..0] == [] && events[..1] == [events[0]] && events[..1][1..] == [];
      assert Run(cfg, s, events[..1]) == Run(cfg, s1, []);
      assert MadeIn(cfg, s, events, i, 0) && Entitles(events[0], d);
    } else {
      EveryTerminationIsEntitled(cfg, s1, events[1..], i);
      var k: nat :| MadeIn(cfg, s1, events[1..], i, k) && Entitles(events[1..][k], d);
      LaterEvents(cfg, s, events, i, k);
      assert events[1..][k] == events[k + 1];
    }
  }

  lemma {:induction false} LogOnlyGrows(cfg: Config, s: State, events: seq<Event>)
    requires Exclusive(cfg, s)
    ensures s.log <= Run(cfg, s, events).log
    decreases |events|
  {
    if events != [] {
      StepReportsAreJustified(cfg, s, events[0]);
      StepKeepsExclusive(cfg, s, events[0]);
      LogOnlyGrows(cfg, Step(cfg, s, events[0]), events[1..]);
    }
  }

  // A live runtime whose lease is pinned to another box is shed in silence, devices
  // and container.
  lemma DuplicatesAreShedQuietly(cfg: Config, s: State, d: string, active: set<string>, fleet: set<string>,
                                 dep: DeploymentAnswer)
    requires Exclusive(cfg, s) && d !in active && d in fleet
    requires Get(s.store, d).Some? && Holding(Get(s.store, d).value.status)
    ensures var s' := CleanupOne(s, d, active, fleet, dep);
            && Entry(s'.alloc, d) == {}
            && Get(s'.store, d) == Some(Get(s.store, d).value.(status := Terminated))
            && s'.log == s.log
            && (DockerOk(s) ==> NoContainer(s'.docker, d))
            && forall e | e != d :: Entry(s'.alloc, e) == Entry(s.alloc, e) && Get(s'.store, e) == Get(s.store, e)
  {
    var r := Get(s.store, d).value;
    assert r.id == d;
    if DockerOk(s) {
      TerminateKeepsDocker(s, r, false);
    }
  }
}
