/** With the outside world's answers held fixed, reconciling reaches a fixed point in
    two passes: the third changes nothing. */
module Stabilisation {
  import opened Common
  import opened GpuAllocation
  import opened Repository
  import opened NodeModel
  import opened Loops
  import opened Exclusivity
  import opened Containers
  import opened Steps
  import opened Suspension
  import opened ContainerIds
  import opened Runs

  // Nothing changed but the log and the (identical) files written.
  ghost predicate Quiet(s: State, s': State) {
    s'.store == s.store && s'.docker == s.docker && SameHoldings(s.alloc, s'.alloc)
  }

  lemma QuietUsed(s: State, s': State)
    requires SameHoldings(s.alloc, s'.alloc)
    ensures Used(s'.alloc) == Used(s.alloc)
  {
    forall x ensures x in Used(s'.alloc) <==> x in Used(s.alloc) {
      if x in Used(s.alloc) {
        var d :| d in s.alloc && x in s.alloc[d];
        assert x in Entry(s'.alloc, d);
      }
      if x in Used(s'.alloc) {
        var d :| d in s'.alloc && x in s'.alloc[d];
        assert x in Entry(s.alloc, d);
      }
    }
  }

  // ------------------------------------------------------------ resume attempts

  // Resuming r keeps failing for as long as no device is given back.
  ghost predicate Stuck(cfg: Config, s: State, r: Record, a: Answers) {
    || ResumeGrant(cfg, s, r, a).Refused?
    || (r.kind.Pod? && !PodResumes(s.docker, r, a) && r.gpuDevices != []
        && r.gpuDevices == Sorted(Devices(r)) && r.gpuCount == Some(ResumeGpuCount(r)))
    || (!r.kind.Pod? && !a.workload.Found?)
  }

  lemma ForeignIsOutside(total: nat, m: Allocations, busy: set<int>)
    ensures Free(total, m) - Foreign(m, busy) == Free(total, m) - busy
  {}

  // Fewer free devices never turn a refusal into a grant.
  lemma RefusalPersists(cfg: Config, s: State, t: State, r: Record, a: Answers)
    requires ResumeGrant(cfg, s, r, a).Refused?
    requires Used(s.alloc) <= Used(t.alloc) && Entry(s.alloc, r.id) == Entry(t.alloc, r.id) == {}
    ensures ResumeGrant(cfg, t, r, a).Refused?
  {
    var total := cfg.totalGpus;
    assert Free(total, t.alloc) <= Free(total, s.alloc);
    if r.kind.Pod? && r.gpuDevices != [] {
      SpecificGrants(total, s.alloc, r.id, r.gpuDevices);
      SpecificGrants(total, t.alloc, r.id, r.gpuDevices);
    } else {
      var n := ResumeGpuCount(r);
      AllocateGrants(total, s.alloc, r.id, n, Foreign(s.alloc, a.resumeBusy));
      AllocateGrants(total, t.alloc, r.id, n, Foreign(t.alloc, a.resumeBusy));
      ForeignIsOutside(total, s.alloc, a.resumeBusy);
      ForeignIsOutside(total, t.alloc, a.resumeBusy);
      SubsetCardinality(Free(total, t.alloc) - a.resumeBusy, Free(total, s.alloc) - a.resumeBusy);
    }
  }

  lemma StuckPersists(cfg: Config, s: State, t: State, r: Record, a: Answers)
    requires Stuck(cfg, s, r, a) && Ages(s.docker, t.docker) && Issued(r.container, s.docker.nextId)
    requires Used(s.alloc) <= Used(t.alloc) && Entry(s.alloc, r.id) == Entry(t.alloc, r.id) == {}
    ensures Stuck(cfg, t, r, a)
  {
    if ResumeGrant(cfg, s, r, a).Refused? {
      RefusalPersists(cfg, s, t, r, a);
    }
  }

  lemma PutSame(store: Store, r: Record)
    requires Get(store, r.id) == Some(r)
    ensures Put(store, r) == store
  {
    assert store.runtimes[r.id := r] == store.runtimes;
  }

  lemma GiveBackIsQuiet(cfg: Config, s: State, r: Record, a: Answers)
    requires Exclusive(cfg, s) && Get(s.store, r.id) == Some(r) && r.status.Suspended?
    requires ResumeGrant(cfg, s, r, a).Granted?
    ensures SameHoldings(s.alloc, Released(ResumeGrant(cfg, s, r, a).after, r.id))
  {
    assert Matches(s, r.id);
    ResumeGrantIsFair(cfg, s, r, a);
  }

  lemma StuckPodIsQuiet(cfg: Config, s: State, r: Record, a: Answers)
    requires Exclusive(cfg, s) && Get(s.store, r.id) == Some(r) && r.status.Suspended? && Stuck(cfg, s, r, a)
    requires r.kind.Pod? && ResumeGrant(cfg, s, r, a).Granted?
    ensures var g := ResumeGrant(cfg, s, r, a); Quiet(s, ResumePod(s.(alloc := g.after), r, g.devices, a))
  {
    var g := ResumeGrant(cfg, s, r, a);
    GiveBackIsQuiet(cfg, s, r, a);
    SpecificGrants(cfg.totalGpus, s.alloc, r.id, r.gpuDevices);
    assert g.devices == r.gpuDevices;
    assert r.(gpuDevices := g.devices, gpuCount := Some(ResumeGpuCount(r)), status := Suspended) == r;
    PutSame(s.store, r);
  }

  lemma StuckIsQuiet(cfg: Config, s: State, r: Record, a: Answers)
    requires Sane(cfg, s) && Get(s.store, r.id) == Some(r) && r.status.Suspended? && Stuck(cfg, s, r, a)
    ensures ResumeRuntime(cfg, s, r, a).Done?
    ensures Quiet(s, ResumeRuntime(cfg, s, r, a).state)
  {
    if ResumeGrant(cfg, s, r, a).Granted? {
      if r.kind.Pod? {
        StuckPodIsQuiet(cfg, s, r, a);
      } else {
        GiveBackIsQuiet(cfg, s, r, a);
      }
    }
  }

  ghost predicate Calm(a: Answers) {
    !a.preparation.UnexpectedError?
  }

  // A start that meets no unexpected exception ends in ready or failed.
  lemma StartEnds(cfg: Config, s: State, r: Record, w: Workload, a: Answers)
    requires Calm(a) && Entry(s.alloc, r.id) == {}
    ensures StartRuntime(cfg, s, r, w, a).Done?
    ensures var s' := StartRuntime(cfg, s, r, w, a).state;
            && Get(s'.store, r.id).Some?
            && (Get(s'.store, r.id).value.status.Ready? || Get(s'.store, r.id).value.status.Failed?)
            && Used(s.alloc) <= Used(s'.alloc)
  {
    StartServes(cfg, s, r, w, a);
    ServedKeepUsed(s, StartRuntime(cfg, s, r, w, a).state, r.id);
    var g := StartGrant(cfg, s, r, w, a);
    if !(r.kind.Pod? && !a.sshReady) && g.Granted? {
      LaunchEnds(cfg, s.(alloc := g.after), r, w, GpusWanted(r.kind, w), g.devices, a);
    }
  }

  lemma LaunchEnds(cfg: Config, s: State, r: Record, w: Workload, gpus: nat, devices: seq<int>, a: Answers)
    requires Calm(a)
    ensures Launch(cfg, s, r, w, gpus, devices, a).Done?
    ensures var s' := Launch(cfg, s, r, w, gpus, devices, a).state;
            && Get(s'.store, r.id).Some?
            && (Get(s'.store, r.id).value.status.Ready? || Get(s'.store, r.id).value.status.Failed?)
  {}

  // A deployment that held nothing cannot give devices back.
  lemma ServedKeepUsed(s: State, s': State, d: string)
    requires Serves(s, s', d) && Entry(s.alloc, d) == {}
    ensures Used(s.alloc) <= Used(s'.alloc)
  {
    forall x | x in Used(s.alloc) ensures x in Used(s'.alloc) {
      var e :| e in s.alloc && x in s.alloc[e];
      assert Lookup(s'.alloc, e) == Lookup(s.alloc, e);
    }
  }

  lemma RedispatchEnds(cfg: Config, s: State, r: Record, a: Answers)
    requires Calm(a) && a.workload.Found? && Entry(s.alloc, r.id) == {}
    requires r.kind.Inference? || r.kind.Vm?
    ensures Redispatch(cfg, s, r, a).Done?
    ensures var s' := Redispatch(cfg, s, r, a).state;
            && Get(s'.store, r.id).Some?
            && (Get(s'.store, r.id).value.status.Ready? || Get(s'.store, r.id).value.status.Failed?)
  {
    var r1 := r.(status := Accepted);
    StartEnds(cfg, Saved(s, r1), r1, a.workload.workload, a);
  }

  // After an attempt, the runtime is ready, failed, or stuck in suspension.
  lemma ResumeSettles(cfg: Config, s: State, r: Record, a: Answers)
    requires Sane(cfg, s) && Calm(a) && Get(s.store, r.id) == Some(r) && r.status.Suspended?
    ensures ResumeRuntime(cfg, s, r, a).Done?
    ensures var s' := ResumeRuntime(cfg, s, r, a).state;
            && Used(s.alloc) <= Used(s'.alloc)
            && Get(s'.store, r.id).Some?
            && var r' := s'.store.runtimes[r.id];
            && (r'.status.Ready? || r'.status.Failed? || (r'.status.Suspended? && Stuck(cfg, s', r', a)))
  {
    assert Matches(s, r.id) && RecordOk(cfg, r);
    var s' := ResumeRuntime(cfg, s, r, a).state;
    ResumeServes(cfg, s, r, a);
    ServedKeepUsed(s, s', r.id);
    var g := ResumeGrant(cfg, s, r, a);
    if g.Granted? {
      ResumeGrantIsFair(cfg, s, r, a);
      if r.kind.Pod? {
        ResumedPodSettles(cfg, s, r, a, g);
      } else if a.workload.Found? {
        RedispatchEnds(cfg, FreedGpus(s.(alloc := g.after), r.id), r, a);
      }
    }
  }

  lemma ResumedPodSettles(cfg: Config, s: State, r: Record, a: Answers, g: Grant)
    requires r.kind.Pod? && r.status.Suspended? && Get(s.store, r.id) == Some(r)
    requires g == ResumeGrant(cfg, s, r, a) && g.Granted?
    ensures var s' := ResumePod(s.(alloc := g.after), r, g.devices, a);
            && Get(s'.store, r.id).Some?
            && var r' := s'.store.runtimes[r.id];
            && (r'.status.Ready? || (r'.status.Suspended? && Stuck(cfg, s', r', a)))
  {
    GrantIsSortedAndNonempty(cfg, s, r, a, g);
    var r1 := r.(gpuDevices := g.devices, gpuCount := Some(ResumeGpuCount(r)), status := Suspended);
    SortedListsOfOneSet(g.devices, Sorted(Devices(r1)));
  }

  lemma GrantIsSortedAndNonempty(cfg: Config, s: State, r: Record, a: Answers, g: Grant)
    requires g == ResumeGrant(cfg, s, r, a) && g.Granted?
    ensures g.devices != [] && StrictlySorted(g.devices)
    ensures |g.devices| == |Elements(g.devices)|
    ensures forall x :: x in g.devices <==> x in Sorted(Elements(g.devices))
  {
    if r.kind.Pod? && r.gpuDevices != [] {
      SpecificGrants(cfg.totalGpus, s.alloc, r.id, r.gpuDevices);
      assert r.gpuDevices[0] in Elements(r.gpuDevices);
    } else {
      AllocateGrants(cfg.totalGpus, s.alloc, r.id, ResumeGpuCount(r), Foreign(s.alloc, a.resumeBusy));
    }
    NoDuplicatesCardinality(g.devices);
    forall x ensures x in g.devices <==> x in Sorted(Elements(g.devices)) {
      assert x in g.devices <==> x in Elements(g.devices);
      assert x in Sorted(Elements(g.devices)) <==> x in Elements(Sorted(Elements(g.devices)));
    }
  }

  // --------------------------------------------------------------- one lease

  // Where a lease stands after it was handled once.
  ghost predicate Settled(s: State, lease: Lease, a: Answers) {
    match Get(s.store, lease.deployment)
    case None => lease.suspended || !a.workload.Found?
    case Some(r) => if lease.suspended then !Holding(r.status) else !r.status.Accepted? && !r.status.Starting?
  }

  // Where it stands after it was handled twice: another attempt does nothing.
  ghost predicate Final(cfg: Config, s: State, lease: Lease, a: Answers) {
    && Settled(s, lease, a)
    && (var o := Get(s.store, lease.deployment);
        o.Some? && o.value.status.Suspended? && !lease.suspended ==> Stuck(cfg, s, o.value, a))
  }

  lemma DispatchSettles(cfg: Config, s: State, lease: Lease, a: Answers)
    requires Sane(cfg, s) && Calm(a) && Get(s.store, lease.deployment).None? && !lease.suspended
    ensures Settled(DispatchGuarded(cfg, s, lease, a), lease, a)
  {
    assert Matches(s, lease.deployment);
    if a.workload.Found? {
      var r := FreshRecord(lease, a.workload.workload);
      if !r.kind.Unsupported? {
        StartEnds(cfg, Saved(s, r), r, a.workload.workload, a);
      }
    }
  }

  lemma FirstTimeSettles(cfg: Config, s: State, lease: Lease, a: Answers)
    requires Sane(cfg, s) && Calm(a)
    ensures HandleLease(cfg, s, lease, a).Done?
    ensures Settled(HandleLease(cfg, s, lease, a).state, lease, a)
  {
    match Get(s.store, lease.deployment)
    case None =>
      if !lease.suspended {
        DispatchSettles(cfg, s, lease, a);
      }
    case Some(r) =>
      assert r.id == lease.deployment;
      if !lease.suspended && r.status.Suspended? {
        ResumeSettles(cfg, s, r, a);
      } else if !lease.suspended && (r.status.Accepted? || r.status.Starting?) {
        var s1 := Removed(TerminateRuntime(s, r, false), r.id);
        RetryKeeps(cfg, s, r);
        TerminateAdvances(s, r, false);
        DispatchSettles(cfg, s1, lease, a);
      }
  }

  lemma SecondTimeIsFinal(cfg: Config, s: State, lease: Lease, a: Answers)
    requires Sane(cfg, s) && Calm(a) && Settled(s, lease, a)
    ensures HandleLease(cfg, s, lease, a).Done?
    ensures Final(cfg, HandleLease(cfg, s, lease, a).state, lease, a)
    ensures Used(s.alloc) <= Used(HandleLease(cfg, s, lease, a).state.alloc)
  {
    match Get(s.store, lease.deployment)
    case None =>
    case Some(r) =>
      assert r.id == lease.deployment;
      if !lease.suspended && r.status.Suspended? {
        ResumeSettles(cfg, s, r, a);
      }
  }

  lemma ThirdTimeIsQuiet(cfg: Config, s: State, lease: Lease, a: Answers)
    requires Sane(cfg, s) && Final(cfg, s, lease, a)
    ensures HandleLease(cfg, s, lease, a).Done?
    ensures Quiet(s, HandleLease(cfg, s, lease, a).state)
  {
    match Get(s.store, lease.deployment)
    case None =>
    case Some(r) =>
      assert r.id == lease.deployment;
      if !lease.suspended && r.status.Suspended? {
        StuckIsQuiet(cfg, s, r, a);
      }
  }

  lemma OthersStayFinal(cfg: Config, s: State, s': State, e: string, lease: Lease, a: Answers)
    requires Sane(cfg, s) && Sane(cfg, s') && Serves(s, s', e) && lease.deployment != e && Ages(s.docker, s'.docker)
    ensures Settled(s, lease, a) ==> Settled(s', lease, a)
    ensures Final(cfg, s, lease, a) && Used(s.alloc) <= Used(s'.alloc) ==> Final(cfg, s', lease, a)
  {
    var o := Get(s.store, lease.deployment);
    assert Matches(s, lease.deployment) && Matches(s', lease.deployment);
    if Final(cfg, s, lease, a) && Used(s.alloc) <= Used(s'.alloc) &&
       o.Some? && o.value.status.Suspended? && !lease.suspended {
      assert o.value.id == lease.deployment;
      StuckPersists(cfg, s, s', o.value, a);
    }
  }

  lemma QuietStaysFinal(cfg: Config, s: State, s': State, lease: Lease, a: Answers)
    requires Sane(cfg, s) && Sane(cfg, s') && Quiet(s, s') && Final(cfg, s, lease, a)
    ensures Final(cfg, s', lease, a)
  {
    QuietUsed(s, s');
    var o := Get(s.store, lease.deployment);
    assert Matches(s, lease.deployment) && Matches(s', lease.deployment);
    if o.Some? && o.value.status.Suspended? && !lease.suspended {
      assert o.value.id == lease.deployment;
      StuckPersists(cfg, s, s', o.value, a);
    }
  }

  // ------------------------------------------------------------ the lease loop

  ghost predicate DistinctDeployments(mine: seq<Lease>) {
    forall i, j | 0 <= i < j < |mine| :: mine[i].deployment != mine[j].deployment
  }

  ghost predicate AllCalm(mine: seq<Lease>, answers: nat -> Answers) {
    forall i | 0 <= i < |mine| :: Calm(answers(i))
  }

  ghost predicate SettledUpTo(s: State, mine: seq<Lease>, answers: nat -> Answers, i: nat)
    requires i <= |mine|
  {
    forall j | 0 <= j < i :: Settled(s, mine[j], answers(j))
  }

  ghost predicate FinalUpTo(cfg: Config, s: State, mine: seq<Lease>, answers: nat -> Answers, i: nat)
    requires i <= |mine|
  {
    forall j | 0 <= j < i :: Final(cfg, s, mine[j], answers(j))
  }

  lemma OneMoreSettles(cfg: Config, s: State, mine: seq<Lease>, answers: nat -> Answers, i: nat)
    requires Sane(cfg, s) && DistinctDeployments(mine) && AllCalm(mine, answers) && i < |mine|
    requires SettledUpTo(s, mine, answers, i)
    ensures var o := HandleLease(cfg, s, mine[i], answers(i));
            o.Done? && Sane(cfg, o.state) && SettledUpTo(o.state, mine, answers, i + 1)
  {
    var s' := HandleLease(cfg, s, mine[i], answers(i)).state;
    FirstTimeSettles(cfg, s, mine[i], answers(i));
    HandleLeaseKeeps(cfg, s, mine[i], answers(i));
    HandleLeaseAdvances(cfg, s, mine[i], answers(i));
    HandleLeaseServes(cfg, s, mine[i], answers(i));
    forall j | 0 <= j < i ensures Settled(s', mine[j], answers(j)) {
      OthersStayFinal(cfg, s, s', mine[i].deployment, mine[j], answers(j));
    }
  }

  lemma {:induction false} FirstLoopSettles(cfg: Config, s: State, mine: seq<Lease>, answers: nat -> Answers, i: nat)
    requires Sane(cfg, s) && DistinctDeployments(mine) && AllCalm(mine, answers) && i <= |mine|
    requires SettledUpTo(s, mine, answers, i)
    ensures var o := LeaseLoop(cfg, s, mine, answers, i);
            o.Done? && Sane(cfg, o.state) && SettledUpTo(o.state, mine, answers, |mine|)
    decreases |mine| - i
  {
    if i < |mine| {
      var s' := HandleLease(cfg, s, mine[i], answers(i)).state;
      OneMoreSettles(cfg, s, mine, answers, i);
      FirstLoopSettles(cfg, s', mine, answers, i + 1);
    }
  }

  lemma {:induction false} SecondLoopIsFinal(cfg: Config, s: State, mine: seq<Lease>, answers: nat -> Answers, i: nat)
    requires Sane(cfg, s) && DistinctDeployments(mine) && AllCalm(mine, answers) && i <= |mine|
    requires SettledUpTo(s, mine, answers, |mine|) && FinalUpTo(cfg, s, mine, answers, i)
    ensures var o := LeaseLoop(cfg, s, mine, answers, i);
            && o.Done? && Sane(cfg, o.state) && FinalUpTo(cfg, o.state, mine, answers, |mine|)
            // the pool of free devices only shrinks on the way
            && Used(s.alloc) <= Used(o.state.alloc)
    decreases |mine| - i
  {
    if i < |mine| {
      var s' := HandleLease(cfg, s, mine[i], answers(i)).state;
      SecondTimeIsFinal(cfg, s, mine[i], answers(i));
      HandleLeaseKeeps(cfg, s, mine[i], answers(i));
      HandleLeaseAdvances(cfg, s, mine[i], answers(i));
      HandleLeaseServes(cfg, s, mine[i], answers(i));
      forall j | 0 <= j < |mine| && j != i
        ensures Settled(s', mine[j], answers(j)) && (j < i ==> Final(cfg, s', mine[j], answers(j)))
      {
        OthersStayFinal(cfg, s, s', mine[i].deployment, mine[j], answers(j));
      }
      SecondLoopIsFinal(cfg, s', mine, answers, i + 1);
    }
  }

  lemma {:induction false} ThirdLoopIsQuiet(cfg: Config, s: State, mine: seq<Lease>, answers: nat -> Answers, i: nat)
    requires Sane(cfg, s) && i <= |mine| && FinalUpTo(cfg, s, mine, answers, |mine|)
    ensures var o := LeaseLoop(cfg, s, mine, answers, i);
            o.Done? && Sane(cfg, o.state) && Quiet(s, o.state) && FinalUpTo(cfg, o.state, mine, answers, |mine|)
    decreases |mine| - i
  {
    if i < |mine| {
      var s' := HandleLease(cfg, s, mine[i], answers(i)).state;
      ThirdTimeIsQuiet(cfg, s, mine[i], answers(i));
      HandleLeaseKeeps(cfg, s, mine[i], answers(i));
      HandleLeaseAdvances(cfg, s, mine[i], answers(i));
      forall j | 0 <= j < |mine| ensures Final(cfg, s', mine[j], answers(j)) {
        QuietStaysFinal(cfg, s, s', mine[j], answers(j));
      }
      ThirdLoopIsQuiet(cfg, s', mine, answers, i + 1);
    }
  }

  // --------------------------------------------------------------- the cleanup

  // What the cleanup leaves of a deployment that is not leased here.
  ghost predicate Reaped(s: State, d: string, dep: DeploymentAnswer) {
    match Get(s.store, d)
    case None => true
    case Some(r) => r.status.Terminated? || (r.status.Suspended? && dep != Exists(DTerminated))
  }

  ghost predicate AllReaped(s: State, active: set<string>, dep: string -> DeploymentAnswer) {
    forall d | d !in active :: Reaped(s, d, dep(d))
  }

  lemma {:induction false} CleanupReaps(cfg: Config, s: State, ids: seq<string>, active: set<string>,
                                        fleet: set<string>, dep: string -> DeploymentAnswer, i: nat)
    requires Sane(cfg, s) && i <= |ids|
    requires forall d | d !in active && d !in ids[i..] :: Reaped(s, d, dep(d))
    ensures var s' := CleanupLoop(s, ids, active, fleet, dep, i);
            && Sane(cfg, s') && AllReaped(s', active, dep)
            && forall d | d in active :: Get(s'.store, d) == Get(s.store, d)
    decreases |ids| - i
  {
    if i < |ids| {
      var e := ids[i];
      var s1 := CleanupOne(s, e, active, fleet, dep(e));
      CleanupOneKeeps(cfg, s, e, active, fleet, dep(e));
      CleanupOneAdvances(s, e, active, fleet, dep(e));
      CleanupOneServes(s, e, active, fleet, dep(e));
      assert ids[i..] == [e] + ids[i + 1..];
      forall d | d !in active && d !in ids[i + 1..] ensures Reaped(s1, d, dep(d)) {
        if d == e {
          OneIsReaped(s, d, active, fleet, dep(d));
        } else {
          assert Reaped(s, d, dep(d));
        }
      }
      CleanupReaps(cfg, s1, ids, active, fleet, dep, i + 1);
    }
  }

  lemma OneIsReaped(s: State, d: string, active: set<string>, fleet: set<string>, dep: DeploymentAnswer)
    requires WellFormed(s.store) && d !in active
    ensures Reaped(CleanupOne(s, d, active, fleet, dep), d, dep)
  {
    if Get(s.store, d).Some? {
      assert s.store.runtimes[d].id == d;
    }
  }

  lemma {:induction false} ReapedIsDone(s: State, ids: seq<string>, active: set<string>, fleet: set<string>,
                                        dep: string -> DeploymentAnswer, i: nat)
    requires i <= |ids| && AllReaped(s, active, dep)
    ensures CleanupLoop(s, ids, active, fleet, dep, i) == s
    decreases |ids| - i
  {
    if i < |ids| {
      assert ids[i] !in active ==> Reaped(s, ids[i], dep(ids[i]));
      ReapedIsDone(s, ids, active, fleet, dep, i + 1);
    }
  }

  // ------------------------------------------------------------------- passes

  // A state on which this input has nothing left to do.
  ghost predicate FixedPoint(cfg: Config, s: State, inp: PassInput) {
    var mine := Mine(cfg, Leases(inp));
    && Sane(cfg, s)
    && FinalUpTo(cfg, s, mine, inp.answers, |mine|)
    && AllReaped(s, Deployments(mine), inp.deployment)
  }

  ghost predicate Steady(cfg: Config, inp: PassInput) {
    var mine := Mine(cfg, Leases(inp));
    DistinctDeployments(mine) && AllCalm(mine, inp.answers)
  }

  lemma FirstPass(cfg: Config, s: State, inp: PassInput)
    requires Sane(cfg, s) && Steady(cfg, inp)
    ensures var s1 := Reconcile(cfg, s, inp);
            var mine := Mine(cfg, Leases(inp));
            && Sane(cfg, s1) && SettledUpTo(s1, mine, inp.answers, |mine|)
            && AllReaped(s1, Deployments(mine), inp.deployment)
  {
    var mine := Mine(cfg, Leases(inp));
    FirstLoopSettles(cfg, s, mine, inp.answers, 0);
    var t := LeaseLoop(cfg, s, mine, inp.answers, 0).state;
    assert t.store.order[0..] == t.store.order;
    CleanupReaps(cfg, t, t.store.order, Deployments(mine), Deployments(Leases(inp)), inp.deployment, 0);
    var s1 := Reconcile(cfg, s, inp);
    forall j | 0 <= j < |mine| ensures Settled(s1, mine[j], inp.answers(j)) {
      assert Settled(t, mine[j], inp.answers(j)) && mine[j] in mine;
      assert mine[j].deployment in Deployments(mine);
    }
  }

  lemma {:induction false} LoopKeepsReaped(cfg: Config, s: State, mine: seq<Lease>, answers: nat -> Answers, i: nat,
                                           dep: string -> DeploymentAnswer)
    requires i <= |mine| && Sane(cfg, s) && AllReaped(s, Deployments(mine), dep)
    ensures AllReaped(LeaseLoop(cfg, s, mine, answers, i).state, Deployments(mine), dep)
  {
    var P := (x: State) => Sane(cfg, x) && AllReaped(x, Deployments(mine), dep);
    forall x: State, j: nat | j < |mine| && P(x) ensures P(HandleLease(cfg, x, mine[j], answers(j)).state) {
      HandleLeaseKeeps(cfg, x, mine[j], answers(j));
      HandleLeaseAdvances(cfg, x, mine[j], answers(j));
      HandleLeaseServes(cfg, x, mine[j], answers(j));
      assert mine[j] in mine;
      assert mine[j].deployment in Deployments(mine);
      forall d | d !in Deployments(mine) ensures Reaped(HandleLease(cfg, x, mine[j], answers(j)).state, d, dep(d)) {
        assert Reaped(x, d, dep(d));
      }
    }
    LeaseLoopKeeps(cfg, s, mine, answers, i, P);
  }

  lemma SecondPass(cfg: Config, s: State, inp: PassInput)
    requires Sane(cfg, s) && Steady(cfg, inp)
    requires SettledUpTo(s, Mine(cfg, Leases(inp)), inp.answers, |Mine(cfg, Leases(inp))|)
    requires AllReaped(s, Deployments(Mine(cfg, Leases(inp))), inp.deployment)
    ensures FixedPoint(cfg, Reconcile(cfg, s, inp), inp)
  {
    var mine := Mine(cfg, Leases(inp));
    SecondLoopIsFinal(cfg, s, mine, inp.answers, 0);
    LoopKeepsReaped(cfg, s, mine, inp.answers, 0, inp.deployment);
    var t := LeaseLoop(cfg, s, mine, inp.answers, 0).state;
    ReapedIsDone(t, t.store.order, Deployments(mine), Deployments(Leases(inp)), inp.deployment, 0);
  }

  lemma FixedPointIsQuiet(cfg: Config, s: State, inp: PassInput)
    requires FixedPoint(cfg, s, inp)
    ensures Quiet(s, Reconcile(cfg, s, inp)) && FixedPoint(cfg, Reconcile(cfg, s, inp), inp)
  {
    var mine := Mine(cfg, Leases(inp));
    ThirdLoopIsQuiet(cfg, s, mine, inp.answers, 0);
    LoopKeepsReaped(cfg, s, mine, inp.answers, 0, inp.deployment);
    var t := LeaseLoop(cfg, s, mine, inp.answers, 0).state;
    ReapedIsDone(t, t.store.order, Deployments(mine), Deployments(Leases(inp)), inp.deployment, 0);
  }

  function Passes(cfg: Config, s: State, inp: PassInput, n: nat): State {
    if n == 0 then s else Reconcile(cfg, Passes(cfg, s, inp, n - 1), inp)
  }

  // Stabilisation: with the leases and all answers held fixed, from any sound state,
  // every pass after the second changes no record, no container and no allocation.
  lemma {:induction false} ReconcileStabilises(cfg: Config, s: State, inp: PassInput, n: nat)
    requires Sane(cfg, s) && Steady(cfg, inp) && n >= 2
    ensures FixedPoint(cfg, Passes(cfg, s, inp, n), inp)
    ensures Quiet(Passes(cfg, s, inp, 2), Passes(cfg, s, inp, n))
    decreases n
  {
    if n == 2 {
      assert Passes(cfg, s, inp, 0) == s;
      assert Passes(cfg, s, inp, 1) == Reconcile(cfg, s, inp);
      FirstPass(cfg, s, inp);
      SecondPass(cfg, Reconcile(cfg, s, inp), inp);
    } else {
      ReconcileStabilises(cfg, s, inp, n - 1);
      FixedPointIsQuiet(cfg, Passes(cfg, s, inp, n - 1), inp);
    }
  }

  // In particular after any run of a fresh node, whatever crashes it went through.
  lemma EveryRunStabilises(cfg: Config, events: seq<Event>, inp: PassInput, n: nat)
    requires Steady(cfg, inp) && n >= 2
    ensures Quiet(Passes(cfg, Run(cfg, EMPTY, events), inp, 2), Passes(cfg, Run(cfg, EMPTY, events), inp, n))
  {
    EmptyIsSane(cfg);
    EveryRunIsSane(cfg, EMPTY, events);
    ReconcileStabilises(cfg, Run(cfg, EMPTY, events), inp, n);
  }

  // Two passes are needed: the first one frees the devices of a runtime that is gone
  // after it has tried, in vain, to resume the pod that waits for them.

  const ORPHAN := Record("orphan", "w", Inference, Ready, [0], Some(1), 1, 0, None, false)
  const WAITING := Record("waiting", "w", Pod, Suspended, [0], Some(1), 1, 0, None, false)
  const ONE_GPU := Config("node", 1, 1)
  const BLOCKED := State(
    Store(map["orphan" := ORPHAN, "waiting" := WAITING], ["orphan", "waiting"]),
    map["orphan" := {0}], Docker(map[], 0), [], [])
  const RESUME := Lease("waiting", "w", "", false)

  function ResumeInput(a: Answers): PassInput {
    PassInput(Some([RESUME]), (i: nat) => a, d => NotFound)
  }

  lemma BlockedIsSound(a: Answers)
    requires Calm(a)
    ensures NodeOk(ONE_GPU, BLOCKED) && Sane(ONE_GPU, BLOCKED) && Steady(ONE_GPU, ResumeInput(a))
  {
    OneLease(ONE_GPU);
    BlockedStore();
    BlockedMatches();
  }

  lemma BlockedStore()
    ensures StoreOk(ONE_GPU, BLOCKED.store)
  {
    assert BLOCKED.store.order == ["orphan", "waiting"];
    assert Elements([0]) == {0};
  }

  lemma BlockedMatches()
    ensures DockerOk(BLOCKED) && forall e :: Matches(BLOCKED, e)
  {
    assert Elements([0]) == {0};
    forall e ensures Matches(BLOCKED, e) && IdOk(BLOCKED, e) {}
  }

  lemma OneLease(cfg: Config)
    ensures Mine(cfg, [RESUME]) == [RESUME]
    ensures Deployments([RESUME]) == {"waiting"}
  {
    assert [RESUME][1..] == [];
  }

  lemma BlockedWaits(a: Answers)
    ensures HandleLease(ONE_GPU, BLOCKED, RESUME, a) == Done(BLOCKED)
  {
    assert BLOCKED.alloc["orphan"] == {0};
    assert 0 in Used(BLOCKED.alloc);
    SpecificGrants(1, BLOCKED.alloc, "waiting", [0]);
    assert 0 in [0];
    assert ResumeGrant(ONE_GPU, BLOCKED, WAITING, a).Refused?;
  }

  lemma OrphanGoes()
    ensures CleanupLoop(BLOCKED, ["orphan", "waiting"], {"waiting"}, {"waiting"}, d => NotFound, 0)
         == TerminateRuntime(BLOCKED, ORPHAN, true)
  {
    var ids, dep := ["orphan", "waiting"], (d: string) => NotFound;
    var s1 := TerminateRuntime(BLOCKED, ORPHAN, true);
    assert CleanupOne(BLOCKED, "orphan", {"waiting"}, {"waiting"}, NotFound) == s1;
    assert CleanupOne(s1, "waiting", {"waiting"}, {"waiting"}, NotFound) == s1;
    assert CleanupLoop(s1, ids, {"waiting"}, {"waiting"}, dep, 2) == s1;
    assert CleanupLoop(s1, ids, {"waiting"}, {"waiting"}, dep, 1) == s1;
  }

  lemma FirstPassOnlyFrees(a: Answers)
    ensures Reconcile(ONE_GPU, BLOCKED, ResumeInput(a)) == TerminateRuntime(BLOCKED, ORPHAN, true)
  {
    OneLease(ONE_GPU);
    BlockedWaits(a);
    var answers := ResumeInput(a).answers;
    assert LeaseLoop(ONE_GPU, BLOCKED, [RESUME], answers, 1) == Done(BLOCKED);
    assert LeaseLoop(ONE_GPU, BLOCKED, [RESUME], answers, 0) == Done(BLOCKED);
    OrphanGoes();
    var dep := ResumeInput(a).deployment;
    assert forall d :: dep(d) == NotFound;
    SameAnswers(BLOCKED, ["orphan", "waiting"], {"waiting"}, {"waiting"}, dep, d => NotFound, 0);
  }

  lemma {:induction false} SameAnswers(s: State, ids: seq<string>, active: set<string>, fleet: set<string>,
                                       dep: string -> DeploymentAnswer, same: string -> DeploymentAnswer, i: nat)
    requires i <= |ids| && forall d :: dep(d) == same(d)
    ensures CleanupLoop(s, ids, active, fleet, dep, i) == CleanupLoop(s, ids, active, fleet, same, i)
    decreases |ids| - i
  {
    if i < |ids| {
      SameAnswers(CleanupOne(s, ids[i], active, fleet, dep(ids[i])), ids, active, fleet, dep, same, i + 1);
    }
  }

  lemma SecondPassMayStillResume(a: Answers)
    requires a.containerResumes
    ensures var s1 := Reconcile(ONE_GPU, BLOCKED, ResumeInput(a));
            var s2 := Reconcile(ONE_GPU, s1, ResumeInput(a));
            && Get(s1.store, "waiting") == Some(WAITING)
            && Get(s2.store, "waiting").Some? && Get(s2.store, "waiting").value.status.Ready?
            && !Quiet(s1, s2)
  {
    FirstPassOnlyFrees(a);
    OneLease(ONE_GPU);
    var s1 := TerminateRuntime(BLOCKED, ORPHAN, true);
    var inp := ResumeInput(a);
    assert s1.alloc == map[];
    var o := HandleLease(ONE_GPU, s1, RESUME, a);
    WaitingResumes(s1, a);
    assert LeaseLoop(ONE_GPU, s1, [RESUME], inp.answers, 0) == LeaseLoop(ONE_GPU, o.state, [RESUME], inp.answers, 1);
    assert LeaseLoop(ONE_GPU, o.state, [RESUME], inp.answers, 1) == o;
    CleanupSparesActive(o.state, o.state.store.order, {"waiting"}, {"waiting"}, inp.deployment, 0, "waiting");
  }

  lemma WaitingResumes(s: State, a: Answers)
    requires a.containerResumes && s.alloc == map[] && Get(s.store, "waiting") == Some(WAITING)
    ensures var o := HandleLease(ONE_GPU, s, RESUME, a);
            o.Done? && Get(o.state.store, "waiting").Some? && Get(o.state.store, "waiting").value.status.Ready?
  {
    SpecificGrants(1, s.alloc, "waiting", [0]);
    assert Elements([0]) == {0};
    assert ResumeGrant(ONE_GPU, s, WAITING, a).Granted?;
  }

  lemma OneSparesActive(s: State, e: string, active: set<string>, fleet: set<string>, dep: DeploymentAnswer, d: string)
    requires d in active && WellFormed(s.store)
    ensures Get(CleanupOne(s, e, active, fleet, dep).store, d) == Get(s.store, d)
    ensures WellFormed(CleanupOne(s, e, active, fleet, dep).store)
  {
    var o, t := Get(s.store, e), CleanupOne(s, e, active, fleet, dep).store;
    if o.Some? && e !in active {
      var r := o.value.(status := Terminated);
      assert r.id == e;
      var gone := Put(s.store, r);
      assert t == s.store || t == gone || t == Drop(gone, e);
      PutKeepsWellFormed(s.store, r);
      DropKeepsWellFormed(gone, e);
      OthersRemain(s.store, r, d);
    }
  }

  lemma OthersRemain(store: Store, r: Record, d: string)
    requires r.id != d
    ensures Get(Put(store, r), d) == Get(store, d)
    ensures Get(Drop(Put(store, r), r.id), d) == Get(store, d)
  {}

  lemma {:induction false} CleanupSparesActive(s: State, ids: seq<string>, active: set<string>, fleet: set<string>,
                                               dep: string -> DeploymentAnswer, i: nat, d: string)
    requires i <= |ids| && d in active && WellFormed(s.store)
    ensures Get(CleanupLoop(s, ids, active, fleet, dep, i).store, d) == Get(s.store, d)
    decreases |ids| - i
  {
    if i < |ids| {
      OneSparesActive(s, ids[i], active, fleet, dep(ids[i]), d);
      CleanupSparesActive(CleanupOne(s, ids[i], active, fleet, dep(ids[i])), ids, active, fleet, dep, i + 1, d);
    }
  }
}
