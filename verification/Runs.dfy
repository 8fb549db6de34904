/** Whole runs of a node agent: passes, recoveries, requested terminations,
    heartbeats, restarts, and crashes in mid-pass. */
module Runs {
  import opened GpuAllocation
  import opened Repository
  import opened NodeModel
  import opened Loops
  import opened Exclusivity
  import opened Containers

  // A crash happens after the state file was written `savesDone` times in all. What
  // the control plane has seen by then is arbitrary, and so are the containers, whose
  // owners and devices may be anything.
  datatype Event =
    | ReconcilePass(inp: PassInput)
    | RecoveryPass(deployment: string -> DeploymentAnswer)
    | UserTermination(d: string)
    | HeartbeatTick(busy: set<int>)
    | QuietRestart
    | CrashInReconcile(inp: PassInput, savesDone: nat, world: Docker, reportsDone: nat)
    | CrashInRecovery(deployment: string -> DeploymentAnswer, savesDone: nat, world: Docker, reportsDone: nat)

  // Docker issues an id once: what is left of the pass carries ids issued by its end.
  function Aftermath(s': State, world: Docker): Docker {
    Docker(map c | c in world.containers && c < s'.docker.nextId :: world.containers[c], s'.docker.nextId)
  }

  // The process dies on its way from s to s' and comes up again.
  function CrashBetween(s: State, s': State, savesDone: nat, world: Docker, reportsDone: nat): State
    requires s.saves <= s'.saves && s.log <= s'.log
  {
    var k := if |s.saves| <= savesDone <= |s'.saves| then savesDone else |s.saves|;
    var n := if |s.log| <= reportsDone <= |s'.log| then reportsDone else |s.log|;
    var disk := if k == |s.saves| then s.store else s'.saves[k - 1];
    Restart(State(disk, s.alloc, Aftermath(s', world), s'.log[..n], s'.saves[..k]), disk)
  }

  lemma PassOnlyAppends(cfg: Config, s: State, inp: PassInput)
    ensures s.saves <= Reconcile(cfg, s, inp).saves && s.log <= Reconcile(cfg, s, inp).log
  {
    var P := (x: State) => s.saves <= x.saves && s.log <= x.log;
    var mine := Mine(cfg, Leases(inp));
    forall x: State, j: nat | j < |mine| && P(x) ensures P(HandleLease(cfg, x, mine[j], inp.answers(j)).state) {
      HandleLeaseAppends(cfg, x, mine[j], inp.answers(j));
    }
    forall ids ensures EachCleanupKeeps(ids, Deployments(mine), Deployments(Leases(inp)), inp.deployment, P) {}
    ReconcileKeeps(cfg, s, inp, P);
  }

  ghost predicate Appends(s: State, s': State) {
    s.saves <= s'.saves && s.log <= s'.log
  }

  lemma LaunchAppends(cfg: Config, s: State, r: Record, w: Workload, gpus: nat, devices: seq<int>, a: Answers)
    ensures Appends(s, Launch(cfg, s, r, w, gpus, devices, a).state)
  {
    var starting := Equipped(cfg, r, w, gpus, devices).(status := Starting);
    assert Appends(s, StartBackend(cfg, Saved(s, starting), starting, a.backendStarts));
  }

  lemma StartAppends(cfg: Config, s: State, r: Record, w: Workload, a: Answers)
    ensures Appends(s, StartRuntime(cfg, s, r, w, a).state)
  {
    var g := StartGrant(cfg, s, r, w, a);
    if g.Granted? {
      LaunchAppends(cfg, s.(alloc := g.after), r, w, GpusWanted(r.kind, w), g.devices, a);
    }
  }

  lemma DispatchAppends(cfg: Config, s: State, lease: Lease, a: Answers)
    ensures Appends(s, DispatchGuarded(cfg, s, lease, a))
  {
    if a.workload.Found? {
      var w := a.workload.workload;
      var r := FreshRecord(lease, w);
      if !w.kind.Unsupported? {
        StartAppends(cfg, Saved(s, r), r, w, a);
        assert Dispatch(cfg, s, lease, a) == StartRuntime(cfg, Saved(s, r), r, w, a);
      }
    }
  }

  lemma ResumeAppends(cfg: Config, s: State, r: Record, a: Answers)
    ensures Appends(s, ResumeRuntime(cfg, s, r, a).state)
  {
    var g := ResumeGrant(cfg, s, r, a);
    if g.Granted? && !r.kind.Pod? && a.workload.Found? {
      var s1 := Saved(FreedGpus(s.(alloc := g.after), r.id), r.(status := Accepted));
      StartAppends(cfg, s1, r.(status := Accepted), a.workload.workload, a);
    }
  }

  lemma HandleLeaseAppends(cfg: Config, s: State, lease: Lease, a: Answers)
    ensures Appends(s, HandleLease(cfg, s, lease, a).state)
  {
    match Get(s.store, lease.deployment)
    case None => DispatchAppends(cfg, s, lease, a);
    case Some(r) =>
      if r.status.Suspended? {
        ResumeAppends(cfg, s, r, a);
      } else {
        DispatchAppends(cfg, Removed(TerminateRuntime(s, r, false), lease.deployment), lease, a);
      }
  }

  lemma RecoveryOnlyAppends(s: State, dep: string -> DeploymentAnswer)
    ensures Appends(s, Recover(s, dep))
  {
    var P := (x: State) => Appends(s, x);
    forall x: State, d | d in s.store.order && P(x) ensures P(RecoverOne(x, d, dep(d))) {}
    RecoverLoopKeeps(s, s.store.order, dep, 0, P);
  }

  function Step(cfg: Config, s: State, e: Event): State {
    match e
    case ReconcilePass(inp) => Reconcile(cfg, s, inp)
    case RecoveryPass(dep) => Recover(s, dep)
    case UserTermination(d) => UserTerminate(s, d)
    case HeartbeatTick(_) => s
    case QuietRestart => Restart(s, s.store)
    case CrashInReconcile(inp, k, world, n) =>
      PassOnlyAppends(cfg, s, inp);
      CrashBetween(s, Reconcile(cfg, s, inp), k, world, n)
    case CrashInRecovery(dep, k, world, n) =>
      RecoveryOnlyAppends(s, dep);
      CrashBetween(s, Recover(s, dep), k, world, n)
  }

  function Run(cfg: Config, s: State, events: seq<Event>): State
    decreases |events|
  {
    if events == [] then s else Run(cfg, Step(cfg, s, events[0]), events[1..])
  }

  predicate IsCrash(e: Event) {
    e.CrashInReconcile? || e.CrashInRecovery?
  }

  // A fresh node.
  const EMPTY := State(Store(map[], []), map[], Docker(map[], 0), [], [])

  lemma EmptyIsOk(cfg: Config)
    ensures NodeOk(cfg, EMPTY)
  {}

  lemma CrashKeepsExclusive(cfg: Config, s: State, s': State, k: nat, world: Docker, n: nat)
    requires Exclusive(cfg, s) && Exclusive(cfg, s') && Appends(s, s')
    ensures Exclusive(cfg, CrashBetween(s, s', k, world, n))
  {
    var c := CrashBetween(s, s', k, world, n);
    assert StoreOk(cfg, c.store);
    assert SavesOk(cfg, c.saves);
    RestartKeepsExclusive(cfg, State(c.store, s.alloc, c.docker, c.log, c.saves), c.store);
  }

  lemma StepKeepsExclusive(cfg: Config, s: State, e: Event)
    requires Exclusive(cfg, s)
    ensures Exclusive(cfg, Step(cfg, s, e))
  {
    match e
    case ReconcilePass(inp) => ReconcileKeepsExclusive(cfg, s, inp);
    case RecoveryPass(dep) => RecoverKeepsExclusive(cfg, s, dep);
    case UserTermination(d) => UserTerminateKeepsExclusive(cfg, s, d);
    case HeartbeatTick(_) =>
    case QuietRestart => RestartKeepsExclusive(cfg, s, s.store);
    case CrashInReconcile(inp, k, world, n) =>
      PassOnlyAppends(cfg, s, inp);
      ReconcileKeepsExclusive(cfg, s, inp);
      CrashKeepsExclusive(cfg, s, Reconcile(cfg, s, inp), k, world, n);
    case CrashInRecovery(dep, k, world, n) =>
      RecoveryOnlyAppends(s, dep);
      RecoverKeepsExclusive(cfg, s, dep);
      CrashKeepsExclusive(cfg, s, Recover(s, dep), k, world, n);
  }

  // GPU exclusivity over every run, crashes included.
  lemma {:induction false} EveryRunIsExclusive(cfg: Config, s: State, events: seq<Event>)
    requires Exclusive(cfg, s)
    ensures Exclusive(cfg, Run(cfg, s, events))
    decreases |events|
  {
    if events != [] {
      StepKeepsExclusive(cfg, s, events[0]);
      EveryRunIsExclusive(cfg, Step(cfg, s, events[0]), events[1..]);
    }
  }

  lemma StepKeepsNode(cfg: Config, s: State, e: Event)
    requires NodeOk(cfg, s) && !IsCrash(e)
    ensures NodeOk(cfg, Step(cfg, s, e))
  {
    match e
    case ReconcilePass(inp) => ReconcileKeepsNode(cfg, s, inp);
    case RecoveryPass(dep) => RecoverKeepsNode(cfg, s, dep);
    case UserTermination(d) => UserTerminateKeepsNode(cfg, s, d);
    case HeartbeatTick(_) =>
    case QuietRestart => RestartKeepsNode(cfg, s);
  }

  // Containers included, as long as the process is not killed inside a pass.
  lemma {:induction false} EveryRunIsIsolated(cfg: Config, s: State, events: seq<Event>)
    requires NodeOk(cfg, s) && forall e | e in events :: !IsCrash(e)
    ensures NodeOk(cfg, Run(cfg, s, events))
    decreases |events|
  {
    if events != [] {
      assert events[0] in events;
      assert forall e | e in events[1..] :: e in events;
      StepKeepsNode(cfg, s, events[0]);
      EveryRunIsIsolated(cfg, Step(cfg, s, events[0]), events[1..]);
    }
  }

  // Spelled out: after any run of a fresh node, live records hold what the
  // allocator says, and two live records never share a device.
  lemma LiveRecordsNeverShareDevices(cfg: Config, events: seq<Event>, d: string, e: string)
    ensures var s := Run(cfg, EMPTY, events);
            && (Get(s.store, d).Some? && Holding(s.store.runtimes[d].status) ==>
                  Entry(s.alloc, d) == Devices(s.store.runtimes[d]) <= DeviceIds(cfg.totalGpus))
            && (Get(s.store, d).Some? && Holding(s.store.runtimes[d].status) &&
                Get(s.store, e).Some? && Holding(s.store.runtimes[e].status) && d != e ==>
                  Entry(s.alloc, d) !! Entry(s.alloc, e))
            && (Get(s.store, d).None? ==> Entry(s.alloc, d) == {})
  {
    EmptyIsOk(cfg);
    EveryRunIsExclusive(cfg, EMPTY, events);
    var s := Run(cfg, EMPTY, events);
    assert Matches(s, d) && Matches(s, e);
  }
}
