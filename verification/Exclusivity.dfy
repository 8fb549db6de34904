/** GPU exclusivity: records, allocator and every file written agree on who
    holds which device, and no device is held twice. */
module Exclusivity {
  import opened Common
  import opened GpuAllocation
  import opened Repository
  import opened NodeModel
  import opened Loops

  predicate Holding(status: Status) {
    status.Starting? || status.Ready?
  }

  function Devices(r: Record): set<int> {
    Elements(r.gpuDevices)
  }

  ghost predicate RecordOk(cfg: Config, r: Record) {
    && NoDuplicates(r.gpuDevices)
    && Devices(r) <= DeviceIds(cfg.totalGpus)
    && (Holding(r.status) || r.status.Suspended? ==> !r.kind.Unsupported?)
  }

  // A state file is sound: starting and ready records never share a device.
  ghost predicate StoreOk(cfg: Config, store: Store) {
    && WellFormed(store)
    && (forall d | d in store.runtimes :: RecordOk(cfg, store.runtimes[d]))
    && (forall d, e | d in store.runtimes && e in store.runtimes && d != e
                      && Holding(store.runtimes[d].status) && Holding(store.runtimes[e].status) ::
          Devices(store.runtimes[d]) !! Devices(store.runtimes[e]))
  }

  // The allocator's entry of `d` is what its record says. Only accepted (and
  // preparing) records may hold something else.
  ghost predicate Matches(s: State, d: string) {
    match Get(s.store, d)
    case None => Entry(s.alloc, d) == {}
    case Some(r) =>
      match r.status
      case Starting => Entry(s.alloc, d) == Devices(r)
      case Ready => Entry(s.alloc, d) == Devices(r)
      case Accepted => true
      case Preparing => true
      case _ => Entry(s.alloc, d) == {}
  }

  ghost predicate SavesOk(cfg: Config, saves: seq<Store>) {
    forall i | 0 <= i < |saves| :: StoreOk(cfg, saves[i])
  }

  // The invariant in the middle of handling `d`.
  ghost predicate ExclusiveBut(cfg: Config, s: State, d: string) {
    && StoreOk(cfg, s.store)
    && SavesOk(cfg, s.saves)
    && forall e | e != d :: Matches(s, e)
  }

  ghost predicate Exclusive(cfg: Config, s: State) {
    && StoreOk(cfg, s.store)
    && SavesOk(cfg, s.saves)
    && forall e :: Matches(s, e)
  }

  // -------------------------------------------------------------- single writes

  ghost predicate DisjointFromOthers(m: Allocations, d: string, devices: set<int>) {
    forall e | e != d :: devices !! Entry(m, e)
  }

  lemma SaveKeeps(cfg: Config, s: State, r: Record)
    requires ExclusiveBut(cfg, s, r.id) && RecordOk(cfg, r)
    requires Holding(r.status) ==> DisjointFromOthers(s.alloc, r.id, Devices(r))
    ensures ExclusiveBut(cfg, Saved(s, r), r.id)
  {
    var store := Put(s.store, r);
    PutKeepsWellFormed(s.store, r);
    forall e | e in store.runtimes && e != r.id && Holding(r.status) && Holding(store.runtimes[e].status)
      ensures Devices(r) !! Devices(store.runtimes[e])
    {
      assert Matches(s, e);
    }
    assert StoreOk(cfg, store);
    forall e | e != r.id ensures Matches(Saved(s, r), e) {
      assert Matches(s, e);
    }
  }

  lemma RemoveKeeps(cfg: Config, s: State, d: string)
    requires ExclusiveBut(cfg, s, d)
    ensures ExclusiveBut(cfg, Removed(s, d), d)
  {
    DropKeepsWellFormed(s.store, d);
    assert StoreOk(cfg, Drop(s.store, d));
    forall e | e != d ensures Matches(Removed(s, d), e) {
      assert Matches(s, e);
    }
  }

  // Changing only the allocator's entry of `d`, the containers or the log.
  lemma EntryChangeKeeps(cfg: Config, s: State, s': State, d: string)
    requires ExclusiveBut(cfg, s, d)
    requires s'.store == s.store && s'.saves == s.saves
    requires forall e | e != d :: Lookup(s'.alloc, e) == Lookup(s.alloc, e)
    ensures ExclusiveBut(cfg, s', d)
  {
    forall e | e != d ensures Matches(s', e) {
      assert Matches(s, e);
      assert Lookup(s'.alloc, e) == Lookup(s.alloc, e);
    }
  }

  lemma Completed(cfg: Config, s: State, d: string)
    requires ExclusiveBut(cfg, s, d) && Matches(s, d)
    ensures Exclusive(cfg, s)
  {}

  // ------------------------------------------------------------------ handlers

  lemma FailKeeps(cfg: Config, s: State, r: Record)
    requires ExclusiveBut(cfg, s, r.id) && RecordOk(cfg, r)
    ensures Exclusive(cfg, FailRuntime(s, r))
  {
    var s1 := FreedGpus(s, r.id);
    EntryChangeKeeps(cfg, s, s1, r.id);
    var s2 := Saved(s1, r.(status := Failed));
    SaveKeeps(cfg, s1, r.(status := Failed));
    EntryChangeKeeps(cfg, s2, FailRuntime(s, r), r.id);
  }

  lemma TerminateKeeps(cfg: Config, s: State, r: Record, report: bool)
    requires ExclusiveBut(cfg, s, r.id) && RecordOk(cfg, r)
    ensures Exclusive(cfg, TerminateRuntime(s, r, report))
  {
    var dk := if r.kind.Inference? || r.kind.Pod? then RemoveId(s.docker, r.container) else s.docker;
    var s1 := FreedGpus(s, r.id).(docker := dk);
    EntryChangeKeeps(cfg, s, s1, r.id);
    var s2 := Saved(s1, r.(status := Terminated));
    SaveKeeps(cfg, s1, r.(status := Terminated));
    EntryChangeKeeps(cfg, s2, TerminateRuntime(s, r, report), r.id);
  }

  lemma SuspendKeeps(cfg: Config, s: State, r: Record)
    requires ExclusiveBut(cfg, s, r.id) && RecordOk(cfg, r) && !r.kind.Unsupported?
    ensures Exclusive(cfg, SuspendRuntime(s, r))
  {
    var s1 := FreedGpus(s, r.id).(docker := SuspendedDocker(s.docker, r));
    EntryChangeKeeps(cfg, s, s1, r.id);
    var s2 := Saved(s1, SuspendedRecord(r));
    SaveKeeps(cfg, s1, SuspendedRecord(r));
    EntryChangeKeeps(cfg, s2, SuspendRuntime(s, r), r.id);
  }

  // The backend is started on devices that are recorded and held by nobody else.
  lemma StartBackendKeeps(cfg: Config, s: State, r: Record, starts: bool)
    requires ExclusiveBut(cfg, s, r.id) && RecordOk(cfg, r) && !r.kind.Unsupported?
    requires Entry(s.alloc, r.id) == Devices(r) && DisjointFromOthers(s.alloc, r.id, Devices(r))
    ensures Exclusive(cfg, StartBackend(cfg, s, r, starts))
  {
    var s' := StartBackend(cfg, s, r, starts);
    var cleaned := if r.kind.Vm? then s else s.(docker := RemoveNamed(s.docker, r.id, r.kind));
    EntryChangeKeeps(cfg, s, cleaned, r.id);
    if starts {
      var live := if r.kind.Vm? then r.(status := Ready, vm := true)
                  else r.(status := Ready, container := Some(cleaned.docker.nextId));
      SaveKeeps(cfg, cleaned, live);
      EntryChangeKeeps(cfg, Saved(cleaned, live), s', r.id);
    } else {
      FailKeeps(cfg, cleaned, r);
    }
  }

  // `o` is a finished step for `d`, or an exception that left its record accepted.
  ghost predicate OutcomeOk(cfg: Config, o: Outcome, d: string) {
    && Exclusive(cfg, o.state)
    && (o.Crashed? ==> Get(o.state.store, d).Some? ==> Get(o.state.store, d).value.status.Accepted?)
  }

  lemma LaunchKeeps(cfg: Config, s: State, r: Record, w: Workload, gpus: nat, devices: seq<int>, a: Answers)
    requires ExclusiveBut(cfg, s, r.id) && RecordOk(cfg, r) && !r.kind.Unsupported?
    requires Get(s.store, r.id) == Some(r) && r.status.Accepted?
    requires NoDuplicates(devices) && Elements(devices) <= DeviceIds(cfg.totalGpus)
    requires Entry(s.alloc, r.id) == Elements(devices) && DisjointFromOthers(s.alloc, r.id, Elements(devices))
    ensures OutcomeOk(cfg, Launch(cfg, s, r, w, gpus, devices, a), r.id)
  {
    var named := Equipped(cfg, r, w, gpus, devices);
    assert RecordOk(cfg, named) && named.id == r.id && named.kind == r.kind;
    var preparation := if r.kind.Vm? then Prepared else a.preparation;
    match preparation
    case Prepared =>
      var starting := named.(status := Starting);
      SaveKeeps(cfg, s, starting);
      StartBackendKeeps(cfg, Saved(s, starting), starting, a.backendStarts);
    case DeclaredError =>
      FailKeeps(cfg, s, if r.kind.Inference? then named else r);
    case UnexpectedError =>
      Completed(cfg, s, r.id);
  }

  lemma StartGrantHolds(cfg: Config, s: State, r: Record, w: Workload, a: Answers, g: Grant)
    requires g == StartGrant(cfg, s, r, w, a) && g.Granted? && Entry(s.alloc, r.id) == {}
    ensures NoDuplicates(g.devices) && Elements(g.devices) <= DeviceIds(cfg.totalGpus)
    ensures Entry(g.after, r.id) == Elements(g.devices)
    ensures DisjointFromOthers(g.after, r.id, Elements(g.devices))
    ensures forall e | e != r.id :: Lookup(g.after, e) == Lookup(s.alloc, e)
  {
    if GpusWanted(r.kind, w) > 0 {
      AllocateIsFair(cfg.totalGpus, s.alloc, r.id, GpusWanted(r.kind, w), Foreign(s.alloc, a.startBusy));
      HoldsFairGrant(cfg, s, r.id, g);
    }
  }

  // An accepted record without devices starts; nothing else changes hands.
  lemma StartKeeps(cfg: Config, s: State, r: Record, w: Workload, a: Answers)
    requires ExclusiveBut(cfg, s, r.id) && RecordOk(cfg, r) && !r.kind.Unsupported?
    requires Get(s.store, r.id) == Some(r) && r.status.Accepted? && Entry(s.alloc, r.id) == {}
    ensures OutcomeOk(cfg, StartRuntime(cfg, s, r, w, a), r.id)
  {
    var g := StartGrant(cfg, s, r, w, a);
    if (r.kind.Pod? && !a.sshReady) || g.Refused? {
      FailKeeps(cfg, s, r);
    } else {
      StartGrantHolds(cfg, s, r, w, a, g);
      var s1 := s.(alloc := g.after);
      EntryChangeKeeps(cfg, s, s1, r.id);
      LaunchKeeps(cfg, s1, r, w, GpusWanted(r.kind, w), g.devices, a);
    }
  }

  lemma HoldsFairGrant(cfg: Config, s: State, d: string, g: Grant)
    requires FairGrant(cfg.totalGpus, s.alloc, d, g)
    ensures Elements(g.devices) <= DeviceIds(cfg.totalGpus)
    ensures DisjointFromOthers(g.after, d, Elements(g.devices))
  {
    forall e | e != d ensures Elements(g.devices) !! Entry(g.after, e) {
      FairGrantsAreDisjoint(cfg.totalGpus, s.alloc, d, g, e);
    }
  }

  lemma ResumePodKeeps(cfg: Config, s: State, r: Record, devices: seq<int>, a: Answers)
    requires ExclusiveBut(cfg, s, r.id) && RecordOk(cfg, r) && r.kind.Pod?
    requires NoDuplicates(devices) && Elements(devices) <= DeviceIds(cfg.totalGpus)
    requires Entry(s.alloc, r.id) == Elements(devices) && DisjointFromOthers(s.alloc, r.id, Elements(devices))
    ensures Exclusive(cfg, ResumePod(s, r, devices, a))
  {
    var r1 := r.(gpuDevices := devices, gpuCount := Some(ResumeGpuCount(r)));
    var s' := ResumePod(s, r, devices, a);
    if PodResumes(s.docker, r, a) {
      var s1 := s.(docker := SetRunning(s.docker, r.container, true));
      EntryChangeKeeps(cfg, s, s1, r.id);
      SaveKeeps(cfg, s1, r1.(status := Ready));
      EntryChangeKeeps(cfg, Saved(s1, r1.(status := Ready)), s', r.id);
    } else {
      var s1 := FreedGpus(s, r.id);
      EntryChangeKeeps(cfg, s, s1, r.id);
      SaveKeeps(cfg, s1, r1.(status := Suspended));
    }
  }

  lemma RedispatchKeeps(cfg: Config, s: State, r: Record, a: Answers)
    requires Exclusive(cfg, s) && RecordOk(cfg, r) && Get(s.store, r.id) == Some(r) && r.status.Suspended?
    requires r.kind.Inference? || r.kind.Vm?
    ensures OutcomeOk(cfg, Redispatch(cfg, s, r, a), r.id)
  {
    if a.workload.Found? {
      assert Matches(s, r.id);
      var r1 := r.(status := Accepted);
      SaveKeeps(cfg, s, r1);
      StartKeeps(cfg, Saved(s, r1), r1, a.workload.workload, a);
    }
  }

  lemma ResumeGrantIsFair(cfg: Config, s: State, r: Record, a: Answers)
    requires Entry(s.alloc, r.id) == {} && ResumeGrant(cfg, s, r, a).Granted?
    ensures FairGrant(cfg.totalGpus, s.alloc, r.id, ResumeGrant(cfg, s, r, a))
  {
    if r.kind.Pod? && r.gpuDevices != [] {
      AllocateSpecificIsFair(cfg.totalGpus, s.alloc, r.id, r.gpuDevices);
    } else {
      AllocateIsFair(cfg.totalGpus, s.alloc, r.id, ResumeGpuCount(r), Foreign(s.alloc, a.resumeBusy));
    }
  }

  lemma ResumeKeeps(cfg: Config, s: State, r: Record, a: Answers)
    requires Exclusive(cfg, s) && Get(s.store, r.id) == Some(r) && r.status.Suspended?
    ensures OutcomeOk(cfg, ResumeRuntime(cfg, s, r, a), r.id)
  {
    assert Matches(s, r.id) && RecordOk(cfg, r);
    var g := ResumeGrant(cfg, s, r, a);
    if g.Granted? {
      ResumeGrantIsFair(cfg, s, r, a);
      HoldsFairGrant(cfg, s, r.id, g);
      var s1 := s.(alloc := g.after);
      EntryChangeKeeps(cfg, s, s1, r.id);
      if r.kind.Pod? {
        ResumePodKeeps(cfg, s1, r, g.devices, a);
      } else {
        EntryChangeKeeps(cfg, s1, FreedGpus(s1, r.id), r.id);
        Completed(cfg, FreedGpus(s1, r.id), r.id);
        RedispatchKeeps(cfg, FreedGpus(s1, r.id), r, a);
      }
    }
  }

  lemma DispatchKeeps(cfg: Config, s: State, lease: Lease, a: Answers)
    requires Exclusive(cfg, s) && Get(s.store, lease.deployment).None?
    ensures OutcomeOk(cfg, Dispatch(cfg, s, lease, a), lease.deployment)
    ensures Exclusive(cfg, DispatchGuarded(cfg, s, lease, a))
  {
    var d := lease.deployment;
    assert Matches(s, d);
    match a.workload
    case LookupFailed =>
      EntryChangeKeeps(cfg, s, Reported(s, d, DFailed), d);
    case Missing =>
      EntryChangeKeeps(cfg, s, Reported(s, d, DFailed), d);
    case Found(w) =>
      var r := FreshRecord(lease, w);
      SaveKeeps(cfg, s, r);
      if w.kind.Unsupported? {
        FailKeeps(cfg, Saved(s, r), r);
      } else {
        StartKeeps(cfg, Saved(s, r), r, w, a);
        var o := StartRuntime(cfg, Saved(s, r), r, w, a);
        EntryChangeKeeps(cfg, o.state, Reported(o.state, d, DFailed), d);
      }
  }

  lemma RetryKeeps(cfg: Config, s: State, r: Record)
    requires Exclusive(cfg, s) && Get(s.store, r.id) == Some(r)
    ensures Exclusive(cfg, Removed(TerminateRuntime(s, r, false), r.id))
  {
    TerminateKeeps(cfg, s, r, false);
    RemoveKeeps(cfg, TerminateRuntime(s, r, false), r.id);
  }

  lemma HandleLeaseKeeps(cfg: Config, s: State, lease: Lease, a: Answers)
    requires Exclusive(cfg, s)
    ensures Exclusive(cfg, HandleLease(cfg, s, lease, a).state)
  {
    var d := lease.deployment;
    match Get(s.store, d)
    case None =>
      if !lease.suspended {
        DispatchKeeps(cfg, s, lease, a);
      }
    case Some(r) =>
      assert r.id == d && RecordOk(cfg, r);
      if lease.suspended {
        if Holding(r.status) {
          SuspendKeeps(cfg, s, r);
        }
      } else if r.status.Suspended? {
        ResumeKeeps(cfg, s, r, a);
      } else if r.status.Accepted? || r.status.Starting? {
        RetryKeeps(cfg, s, r);
        DispatchKeeps(cfg, Removed(TerminateRuntime(s, r, false), d), lease, a);
      }
  }

  lemma CleanupOneKeeps(cfg: Config, s: State, d: string, active: set<string>, fleet: set<string>,
                        dep: DeploymentAnswer)
    requires Exclusive(cfg, s)
    ensures Exclusive(cfg, CleanupOne(s, d, active, fleet, dep))
  {
    match Get(s.store, d)
    case None =>
    case Some(r) =>
      assert r.id == d && RecordOk(cfg, r);
      TerminateKeeps(cfg, s, r, true);
      TerminateKeeps(cfg, s, r, d !in fleet);
      RemoveKeeps(cfg, TerminateRuntime(s, r, true), d);
  }

  lemma RecoverOneKeeps(cfg: Config, s: State, d: string, dep: DeploymentAnswer)
    requires Exclusive(cfg, s)
    ensures Exclusive(cfg, RecoverOne(s, d, dep))
  {
    match Get(s.store, d)
    case None =>
    case Some(r) =>
      assert r.id == d && RecordOk(cfg, r);
      TerminateKeeps(cfg, s, r, true);
      TerminateKeeps(cfg, s, r, false);
  }

  // -------------------------------------------------------------------- passes

  lemma ReconcileKeepsExclusive(cfg: Config, s: State, inp: PassInput)
    requires Exclusive(cfg, s)
    ensures Exclusive(cfg, Reconcile(cfg, s, inp))
  {
    var P := (x: State) => Exclusive(cfg, x);
    var mine := Mine(cfg, Leases(inp));
    forall x: State, j: nat | j < |mine| && P(x) ensures P(HandleLease(cfg, x, mine[j], inp.answers(j)).state) {
      HandleLeaseKeeps(cfg, x, mine[j], inp.answers(j));
    }
    var active, fleet := Deployments(mine), Deployments(Leases(inp));
    forall ids ensures EachCleanupKeeps(ids, active, fleet, inp.deployment, P) {
      forall x: State, d | d in ids && P(x) ensures P(CleanupOne(x, d, active, fleet, inp.deployment(d))) {
        CleanupOneKeeps(cfg, x, d, active, fleet, inp.deployment(d));
      }
    }
    ReconcileKeeps(cfg, s, inp, P);
  }

  lemma RecoverKeepsExclusive(cfg: Config, s: State, dep: string -> DeploymentAnswer)
    requires Exclusive(cfg, s)
    ensures Exclusive(cfg, Recover(s, dep))
  {
    var P := (x: State) => Exclusive(cfg, x);
    forall x: State, d | d in s.store.order && P(x) ensures P(RecoverOne(x, d, dep(d))) {
      RecoverOneKeeps(cfg, x, d, dep(d));
    }
    RecoverLoopKeeps(s, s.store.order, dep, 0, P);
  }

  lemma UserTerminateKeepsExclusive(cfg: Config, s: State, d: string)
    requires Exclusive(cfg, s)
    ensures Exclusive(cfg, UserTerminate(s, d))
  {
    if Get(s.store, d).Some? {
      var r := s.store.runtimes[d];
      assert r.id == d;
      TerminateKeeps(cfg, s, r, true);
    }
  }

  // ------------------------------------------------------------ reload and restart

  // What a reload holds for `d`: the devices of its record, when there are any and it is
  // accepted, preparing, starting or ready.
  function RehydratedEntry(store: Store, d: string): Option<set<int>> {
    match Get(store, d)
    case None => None
    case Some(r) =>
      if r.gpuDevices != [] && r.status in {Accepted, Preparing, Starting, Ready} then Some(Devices(r)) else None
  }

  lemma {:induction false} RehydrateLoopEntry(store: Store, m: Allocations, i: nat, d: string)
    requires NoDuplicates(store.order) && i <= |store.order|
    ensures Lookup(RehydrateLoop(store, m, i), d)
         == if d in store.order[i..] && RehydratedEntry(store, d).Some? then RehydratedEntry(store, d) else Lookup(m, d)
    decreases |store.order| - i
  {
    if i < |store.order| {
      var e := store.order[i];
      assert store.order[i..] == [e] + store.order[i + 1..];
      assert e !in store.order[i + 1..];
      var m1 := match Get(store, e)
        case None => m
        case Some(r) => if Active(r.status) && r.gpuDevices != [] then m[e := Elements(r.gpuDevices)] else m;
      RehydrateLoopEntry(store, m1, i + 1, d);
    }
  }

  lemma RehydratedIsRecorded(store: Store, d: string)
    requires WellFormed(store)
    ensures Lookup(Rehydrated(store), d) == RehydratedEntry(store, d)
  {
    RehydrateLoopEntry(store, map[], 0, d);
    assert store.order[0..] == store.order;
  }

  // Any sound state file reloads into an exclusive state.
  lemma RestartKeepsExclusive(cfg: Config, s: State, disk: Store)
    requires StoreOk(cfg, disk) && SavesOk(cfg, s.saves)
    ensures Exclusive(cfg, Restart(s, disk))
  {
    forall d ensures Matches(Restart(s, disk), d) {
      RehydratedIsRecorded(disk, d);
    }
  }

  // Crash safety: whatever file a pass has written by the time the process dies,
  // reloading it and rehydrating the allocator gives exclusivity back.
  lemma EverySaveIsRecoverable(cfg: Config, s: State, inp: PassInput, k: nat)
    requires Exclusive(cfg, s) && k < |Reconcile(cfg, s, inp).saves|
    ensures Exclusive(cfg, Restart(s, Reconcile(cfg, s, inp).saves[k]))
  {
    ReconcileKeepsExclusive(cfg, s, inp);
    RestartKeepsExclusive(cfg, s, Reconcile(cfg, s, inp).saves[k]);
  }

  lemma LaunchAllocations(cfg: Config, s: State, r: Record, w: Workload, gpus: nat, devices: seq<int>, a: Answers)
    ensures var s' := Launch(cfg, s, r, w, gpus, devices, a).state;
            s'.alloc == s.alloc || s'.alloc == Released(s.alloc, r.id)
  {}

  lemma StartIsDisjoint(cfg: Config, s: State, r: Record, w: Workload, a: Answers)
    requires Entry(s.alloc, r.id) == {}
    ensures var s' := StartRuntime(cfg, s, r, w, a).state;
            DisjointFromOthers(s'.alloc, r.id, Entry(s'.alloc, r.id))
  {
    var g := StartGrant(cfg, s, r, w, a);
    if !(r.kind.Pod? && !a.sshReady) && g.Granted? {
      StartGrantHolds(cfg, s, r, w, a, g);
      LaunchAllocations(cfg, s.(alloc := g.after), r, w, GpusWanted(r.kind, w), g.devices, a);
    }
  }

  lemma DispatchIsDisjoint(cfg: Config, s: State, lease: Lease, a: Answers)
    requires Entry(s.alloc, lease.deployment) == {}
    ensures var s' := DispatchGuarded(cfg, s, lease, a);
            DisjointFromOthers(s'.alloc, lease.deployment, Entry(s'.alloc, lease.deployment))
  {
    if a.workload.Found? && !a.workload.workload.kind.Unsupported? {
      var r := FreshRecord(lease, a.workload.workload);
      StartIsDisjoint(cfg, Saved(s, r), r, a.workload.workload, a);
    }
  }

  // The overlap a reloaded accepted record may cause ends with its retry: after
  // it, what the deployment holds is held by nobody else.
  lemma RetryHealsOverlap(cfg: Config, s: State, lease: Lease, a: Answers)
    requires Exclusive(cfg, s) && !lease.suspended
    requires Get(s.store, lease.deployment).Some? && Get(s.store, lease.deployment).value.status.Accepted?
    ensures var s' := HandleLease(cfg, s, lease, a).state;
            DisjointFromOthers(s'.alloc, lease.deployment, Entry(s'.alloc, lease.deployment))
  {
    var d, r := lease.deployment, Get(s.store, lease.deployment).value;
    var s0 := Removed(TerminateRuntime(s, r, false), d);
    assert r.id == d;
    assert Entry(s0.alloc, d) == {};
    DispatchIsDisjoint(cfg, s0, lease, a);
  }
}
