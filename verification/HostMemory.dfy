/** GPU pods never get more memory together than the host has. */
module HostMemory {
  import opened Common
  import opened GpuAllocation
  import opened Repository
  import opened NodeModel
  import opened Loops
  import opened Exclusivity
  import opened Runs

  // ------------------------------------------------------------------ the shares

  lemma ShareIsMonotone(cfg: Config, g: nat, h: nat)
    requires g <= h
    ensures MemoryGrant(cfg, g, 0) <= MemoryGrant(cfg, h, 0)
  {
    var hosts := Max(cfg.totalGpus, 1);
    var a, b := if g > 0 then g else 1, if h > 0 then h else 1;
    ProductsAreMonotone(cfg.memoryGb, a, b);
    QuotientsAreMonotone(cfg.memoryGb * a, cfg.memoryGb * b, hosts);
  }

  lemma ProductsAreMonotone(m: nat, a: nat, b: nat)
    requires a <= b
    ensures m * a <= m * b
  {}

  lemma QuotientsAreMonotone(x: nat, y: nat, n: nat)
    requires x <= y && n >= 1
    ensures x / n <= y / n
  {
    if x / n > y / n {
      ProductsAreMonotone(n, y / n + 1, x / n);
    }
  }

  lemma RequestsOnlyShrink(cfg: Config, g: nat, requested: nat)
    ensures MemoryGrant(cfg, g, requested) <= MemoryGrant(cfg, g, 0)
  {}

  // With at least one GB per GPU, g devices never bring more than g/N of the memory.
  lemma ShareIsProportional(cfg: Config, g: nat)
    requires cfg.memoryGb >= cfg.totalGpus >= 1 && g >= 1
    ensures MemoryGrant(cfg, g, 0) * cfg.totalGpus <= cfg.memoryGb * g
  {
    var m, n := cfg.memoryGb, cfg.totalGpus;
    var q := m * g / n;
    ProductsAreMonotone(m, 1, g);
    QuotientsAreMonotone(n, m * g, n);
    assert n / n == 1;
    assert m * g == n * q + (m * g) % n;
    assert MemoryGrant(cfg, g, 0) == q;
  }

  lemma GrantsAreProportional(cfg: Config, memory: nat, g: nat)
    requires cfg.memoryGb >= cfg.totalGpus >= 1 && g >= 1 && memory <= MemoryGrant(cfg, g, 0)
    ensures memory * cfg.totalGpus <= cfg.memoryGb * g
  {
    ShareIsProportional(cfg, g);
    var share := MemoryGrant(cfg, g, 0);
    ProductsAreMonotone(cfg.totalGpus, memory, share);
    assert cfg.totalGpus * memory == memory * cfg.totalGpus && cfg.totalGpus * share == share * cfg.totalGpus;
  }

  // ------------------------------------------------------------------ invariant

  ghost predicate MemoryOk(cfg: Config, r: Record) {
    r.kind.Pod? && (Holding(r.status) || r.status.Suspended?) ==>
      r.memoryGb <= MemoryGrant(cfg, |r.gpuDevices|, 0)
  }

  ghost predicate StoreMemoryOk(cfg: Config, store: Store) {
    forall d | d in store.runtimes :: MemoryOk(cfg, store.runtimes[d])
  }

  ghost predicate MemoryInv(cfg: Config, s: State) {
    StoreMemoryOk(cfg, s.store) && forall i | 0 <= i < |s.saves| :: StoreMemoryOk(cfg, s.saves[i])
  }

  lemma SaveKeepsMemory(cfg: Config, s: State, r: Record)
    requires MemoryInv(cfg, s) && MemoryOk(cfg, r)
    ensures MemoryInv(cfg, Saved(s, r))
  {
    assert StoreMemoryOk(cfg, Put(s.store, r));
  }

  lemma RemoveKeepsMemory(cfg: Config, s: State, d: string)
    requires MemoryInv(cfg, s)
    ensures MemoryInv(cfg, Removed(s, d))
  {
    assert StoreMemoryOk(cfg, Drop(s.store, d));
  }

  lemma FailKeepsMemory(cfg: Config, s: State, r: Record)
    requires MemoryInv(cfg, s)
    ensures MemoryInv(cfg, FailRuntime(s, r))
  {
    SaveKeepsMemory(cfg, FreedGpus(s, r.id), r.(status := Failed));
  }

  lemma TerminateKeepsMemory(cfg: Config, s: State, r: Record, report: bool)
    requires MemoryInv(cfg, s)
    ensures MemoryInv(cfg, TerminateRuntime(s, r, report))
  {
    var stops := r.kind.Inference? || r.kind.Pod?;
    var s1 := FreedGpus(s, r.id).(docker := if stops then RemoveId(s.docker, r.container) else s.docker);
    SaveKeepsMemory(cfg, s1, r.(status := Terminated));
  }

  lemma SuspendKeepsMemory(cfg: Config, s: State, r: Record)
    requires MemoryInv(cfg, s) && MemoryOk(cfg, r) && Holding(r.status)
    ensures MemoryInv(cfg, SuspendRuntime(s, r))
  {
    SaveKeepsMemory(cfg, FreedGpus(s, r.id).(docker := SuspendedDocker(s.docker, r)), SuspendedRecord(r));
  }

  lemma StartBackendKeepsMemory(cfg: Config, s: State, r: Record, starts: bool)
    requires MemoryInv(cfg, s) && MemoryOk(cfg, r) && r.status.Starting?
    ensures MemoryInv(cfg, StartBackend(cfg, s, r, starts))
  {
    var cleaned := if r.kind.Vm? then s else s.(docker := RemoveNamed(s.docker, r.id, r.kind));
    FailKeepsMemory(cfg, cleaned, r);
    if r.kind.Vm? {
      SaveKeepsMemory(cfg, s, r.(status := Ready, vm := true));
    } else {
      var s2 := cleaned.(docker := RunNew(cleaned.docker, Container(r.id, r.kind, PassedThrough(cfg, r), true)));
      SaveKeepsMemory(cfg, s2, r.(status := Ready, container := Some(cleaned.docker.nextId)));
    }
  }

  lemma LaunchKeepsMemory(cfg: Config, s: State, r: Record, w: Workload, gpus: nat, devices: seq<int>, a: Answers)
    requires MemoryInv(cfg, s) && |devices| == gpus
    ensures MemoryInv(cfg, Launch(cfg, s, r, w, gpus, devices, a).state)
  {
    var named := Equipped(cfg, r, w, gpus, devices);
    var starting := named.(status := Starting);
    RequestsOnlyShrink(cfg, gpus, w.requestedMemoryGb);
    assert MemoryOk(cfg, starting);
    SaveKeepsMemory(cfg, s, starting);
    StartBackendKeepsMemory(cfg, Saved(s, starting), starting, a.backendStarts);
    FailKeepsMemory(cfg, s, named);
    FailKeepsMemory(cfg, s, r);
  }

  lemma StartKeepsMemory(cfg: Config, s: State, r: Record, w: Workload, a: Answers)
    requires MemoryInv(cfg, s)
    ensures MemoryInv(cfg, StartRuntime(cfg, s, r, w, a).state)
  {
    FailKeepsMemory(cfg, s, r);
    var g := StartGrant(cfg, s, r, w, a);
    if g.Granted? {
      if GpusWanted(r.kind, w) > 0 {
        AllocateGrants(cfg.totalGpus, s.alloc, r.id, GpusWanted(r.kind, w), Foreign(s.alloc, a.startBusy));
      }
      LaunchKeepsMemory(cfg, s.(alloc := g.after), r, w, GpusWanted(r.kind, w), g.devices, a);
    }
  }

  lemma ResumeGrantSize(cfg: Config, s: State, r: Record, a: Answers, g: Grant)
    requires RecordOk(cfg, r) && g == ResumeGrant(cfg, s, r, a) && g.Granted?
    ensures |g.devices| >= |r.gpuDevices| || !r.kind.Pod?
  {
    if r.kind.Pod? && r.gpuDevices != [] {
      SpecificGrants(cfg.totalGpus, s.alloc, r.id, r.gpuDevices);
      NoDuplicatesCardinality(r.gpuDevices);
    }
  }

  lemma ResumeKeepsMemory(cfg: Config, s: State, r: Record, a: Answers)
    requires MemoryInv(cfg, s) && MemoryOk(cfg, r) && RecordOk(cfg, r) && r.status.Suspended?
    ensures MemoryInv(cfg, ResumeRuntime(cfg, s, r, a).state)
  {
    var g := ResumeGrant(cfg, s, r, a);
    if g.Granted? {
      var s1 := s.(alloc := g.after);
      if r.kind.Pod? {
        ResumeGrantSize(cfg, s, r, a, g);
        ShareIsMonotone(cfg, |r.gpuDevices|, |g.devices|);
        var r1 := r.(gpuDevices := g.devices, gpuCount := Some(ResumeGpuCount(r)));
        SaveKeepsMemory(cfg, s1.(docker := SetRunning(s1.docker, r.container, true)), r1.(status := Ready));
        SaveKeepsMemory(cfg, FreedGpus(s1, r.id), r1.(status := Suspended));
      } else if a.workload.Found? {
        var r1 := r.(status := Accepted);
        SaveKeepsMemory(cfg, FreedGpus(s1, r.id), r1);
        StartKeepsMemory(cfg, Saved(FreedGpus(s1, r.id), r1), r1, a.workload.workload, a);
      }
    }
  }

  lemma DispatchKeepsMemory(cfg: Config, s: State, lease: Lease, a: Answers)
    requires MemoryInv(cfg, s)
    ensures MemoryInv(cfg, DispatchGuarded(cfg, s, lease, a))
  {
    if a.workload.Found? {
      var r := FreshRecord(lease, a.workload.workload);
      SaveKeepsMemory(cfg, s, r);
      FailKeepsMemory(cfg, Saved(s, r), r);
      StartKeepsMemory(cfg, Saved(s, r), r, a.workload.workload, a);
    }
  }

  lemma HandleLeaseKeepsMemory(cfg: Config, s: State, lease: Lease, a: Answers)
    requires MemoryInv(cfg, s) && Exclusive(cfg, s)
    ensures MemoryInv(cfg, HandleLease(cfg, s, lease, a).state)
  {
    match Get(s.store, lease.deployment)
    case None => DispatchKeepsMemory(cfg, s, lease, a);
    case Some(r) =>
      assert MemoryOk(cfg, r) && RecordOk(cfg, r);
      if lease.suspended {
        if Holding(r.status) {
          SuspendKeepsMemory(cfg, s, r);
        }
      } else if r.status.Suspended? {
        ResumeKeepsMemory(cfg, s, r, a);
      } else {
        TerminateKeepsMemory(cfg, s, r, false);
        RemoveKeepsMemory(cfg, TerminateRuntime(s, r, false), lease.deployment);
        DispatchKeepsMemory(cfg, Removed(TerminateRuntime(s, r, false), lease.deployment), lease, a);
      }
  }

  lemma ReconcileKeepsMemory(cfg: Config, s: State, inp: PassInput)
    requires MemoryInv(cfg, s) && Exclusive(cfg, s)
    ensures MemoryInv(cfg, Reconcile(cfg, s, inp))
  {
    var P := (x: State) => MemoryInv(cfg, x) && Exclusive(cfg, x);
    var mine := Mine(cfg, Leases(inp));
    forall x: State, j: nat | j < |mine| && P(x) ensures P(HandleLease(cfg, x, mine[j], inp.answers(j)).state) {
      HandleLeaseKeeps(cfg, x, mine[j], inp.answers(j));
      HandleLeaseKeepsMemory(cfg, x, mine[j], inp.answers(j));
    }
    var active, fleet := Deployments(mine), Deployments(Leases(inp));
    forall ids ensures EachCleanupKeeps(ids, active, fleet, inp.deployment, P) {
      forall x: State, d | d in ids && P(x) ensures P(CleanupOne(x, d, active, fleet, inp.deployment(d))) {
        CleanupOneKeeps(cfg, x, d, active, fleet, inp.deployment(d));
        if Get(x.store, d).Some? {
          var r := x.store.runtimes[d];
          TerminateKeepsMemory(cfg, x, r, true);
          TerminateKeepsMemory(cfg, x, r, d !in fleet);
          RemoveKeepsMemory(cfg, TerminateRuntime(x, r, true), d);
        }
      }
    }
    ReconcileKeeps(cfg, s, inp, P);
  }

  lemma RecoverKeepsMemory(cfg: Config, s: State, dep: string -> DeploymentAnswer)
    requires MemoryInv(cfg, s)
    ensures MemoryInv(cfg, Recover(s, dep))
  {
    var P := (x: State) => MemoryInv(cfg, x);
    forall x: State, d | d in s.store.order && P(x) ensures P(RecoverOne(x, d, dep(d))) {
      if Get(x.store, d).Some? {
        TerminateKeepsMemory(cfg, x, x.store.runtimes[d], true);
        TerminateKeepsMemory(cfg, x, x.store.runtimes[d], false);
      }
    }
    RecoverLoopKeeps(s, s.store.order, dep, 0, P);
  }

  lemma StepKeepsMemory(cfg: Config, s: State, e: Event)
    requires MemoryInv(cfg, s) && Exclusive(cfg, s)
    ensures MemoryInv(cfg, Step(cfg, s, e))
  {
    if e.ReconcilePass? || e.CrashInReconcile? {
      PassOnlyAppends(cfg, s, e.inp);
      ReconcileKeepsMemory(cfg, s, e.inp);
    } else if e.RecoveryPass? || e.CrashInRecovery? {
      RecoveryOnlyAppends(s, e.deployment);
      RecoverKeepsMemory(cfg, s, e.deployment);
    } else if e.UserTermination? && Get(s.store, e.d).Some? {
      TerminateKeepsMemory(cfg, s, s.store.runtimes[e.d], true);
    }
  }

  lemma {:induction false} EveryRunKeepsMemory(cfg: Config, s: State, events: seq<Event>)
    requires MemoryInv(cfg, s) && Exclusive(cfg, s)
    ensures MemoryInv(cfg, Run(cfg, s, events))
    decreases |events|
  {
    if events != [] {
      StepKeepsMemory(cfg, s, events[0]);
      StepKeepsExclusive(cfg, s, events[0]);
      EveryRunKeepsMemory(cfg, Step(cfg, s, events[0]), events[1..]);
    }
  }

  // -------------------------------------------------------------------- the sum

  predicate LiveGpuPod(r: Record) {
    r.kind.Pod? && Holding(r.status) && r.gpuDevices != []
  }

  function MemoryOf(store: Store): string -> nat {
    d => if d in store.runtimes && LiveGpuPod(store.runtimes[d]) then store.runtimes[d].memoryGb else 0
  }

  function PodDevices(store: Store): string -> set<int> {
    d => if d in store.runtimes && LiveGpuPod(store.runtimes[d]) then Devices(store.runtimes[d]) else {}
  }

  lemma {:induction false} SumScales(keys: set<string>, light: string -> nat, heavy: string -> nat, n: nat, m: nat)
    requires forall k | k in keys :: light(k) * n <= m * heavy(k)
    ensures Sum(keys, light) * n <= m * Sum(keys, heavy)
    decreases keys
  {
    if keys != {} {
      var k := Pick(keys);
      SumPick(keys, k, light);
      SumPick(keys, k, heavy);
      SumScales(keys - {k}, light, heavy, n, m);
      Distribute(light(k), Sum(keys - {k}, light), n);
      Distribute(heavy(k), Sum(keys - {k}, heavy), m);
    }
  }

  lemma Distribute(a: nat, b: nat, n: nat)
    ensures (a + b) * n == a * n + b * n
    ensures n * (a + b) == n * a + n * b
  {}

  // Every starting or ready pod that holds devices is counted; together they get at
  // most the host's memory, after any run of a fresh node.
  lemma MemoryIsNeverOversubscribed(cfg: Config, events: seq<Event>)
    requires cfg.memoryGb >= cfg.totalGpus >= 1
    ensures var s := Run(cfg, EMPTY, events);
            Sum(s.store.runtimes.Keys, MemoryOf(s.store)) <= cfg.memoryGb
  {
    var s := Run(cfg, EMPTY, events);
    EmptyIsOk(cfg);
    EveryRunIsExclusive(cfg, EMPTY, events);
    EveryRunKeepsMemory(cfg, EMPTY, events);
    SoundStoreFits(cfg, s.store);
  }

  lemma PodFitsItsShare(cfg: Config, store: Store, d: string)
    requires cfg.memoryGb >= cfg.totalGpus >= 1 && d in store.runtimes
    requires StoreOk(cfg, store) && StoreMemoryOk(cfg, store)
    ensures MemoryOf(store)(d) * cfg.totalGpus <= cfg.memoryGb * SizeOf(PodDevices(store))(d)
  {
    var r := store.runtimes[d];
    if LiveGpuPod(r) {
      assert MemoryOk(cfg, r) && RecordOk(cfg, r);
      NoDuplicatesCardinality(r.gpuDevices);
      GrantsAreProportional(cfg, r.memoryGb, |r.gpuDevices|);
      assert SizeOf(PodDevices(store))(d) == |r.gpuDevices|;
    }
  }

  lemma PodsShareTheHost(cfg: Config, store: Store)
    requires StoreOk(cfg, store)
    ensures Sum(store.runtimes.Keys, SizeOf(PodDevices(store))) <= cfg.totalGpus
  {
    var keys, part := store.runtimes.Keys, PodDevices(store);
    forall x | x in Union(keys, part) ensures x in DeviceIds(cfg.totalGpus) {
      var d :| d in keys && x in part(d);
      assert RecordOk(cfg, store.runtimes[d]);
    }
    SumOfSizes(keys, part);
    SubsetCardinality(Union(keys, part), DeviceIds(cfg.totalGpus));
  }

  lemma SoundStoreFits(cfg: Config, store: Store)
    requires cfg.memoryGb >= cfg.totalGpus >= 1
    requires StoreOk(cfg, store) && StoreMemoryOk(cfg, store)
    ensures Sum(store.runtimes.Keys, MemoryOf(store)) <= cfg.memoryGb
  {
    var keys, memory, sizes := store.runtimes.Keys, MemoryOf(store), SizeOf(PodDevices(store));
    forall d | d in keys ensures memory(d) * cfg.totalGpus <= cfg.memoryGb * sizes(d) {
      PodFitsItsShare(cfg, store, d);
    }
    PodsShareTheHost(cfg, store);
    FitsWhenProportional(keys, memory, sizes, cfg.totalGpus, cfg.memoryGb);
  }

  lemma {:induction false} FitsWhenProportional(keys: set<string>, memory: string -> nat, sizes: string -> nat,
                                                gpus: nat, host: nat)
    requires gpus >= 1 && Sum(keys, sizes) <= gpus
    requires forall d | d in keys :: memory(d) * gpus <= host * sizes(d)
    ensures Sum(keys, memory) <= host
  {
    SumScales(keys, memory, sizes, gpus, host);
    ProductsAreMonotone(host, Sum(keys, sizes), gpus);
    CancelFactor(Sum(keys, memory), host, gpus);
  }

  lemma CancelFactor(a: nat, b: nat, n: nat)
    requires a * n <= b * n && n >= 1
    ensures a <= b
  {
    if a > b {
      ProductsAreMonotone(n, b + 1, a);
    }
  }
}
