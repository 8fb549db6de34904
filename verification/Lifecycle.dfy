/** How a record's status may change, over whole runs and in every state file
    written on the way. */
module Lifecycle {
  import opened Common
  import opened Repository
  import opened NodeModel
  import opened Loops
  import opened Exclusivity
  import opened Steps
  import opened Runs

  type Phase = Option<Record> -> bool

  // `d`'s record satisfies q now and in every file written from the n-th on.
  ghost predicate Throughout(s: State, n: nat, d: string, q: Phase) {
    && n <= |s.saves|
    && q(Get(s.store, d))
    && forall i | n <= i < |s.saves| :: q(Get(s.saves[i], d))
  }

  lemma OthersKeep(s: State, s': State, e: string, n: nat, d: string, q: Phase)
    requires Serves(s, s', e) && e != d && Throughout(s, n, d, q)
    ensures Throughout(s', n, d, q)
  {
    forall i | n <= i < |s'.saves| ensures q(Get(s'.saves[i], d)) {
      if i < |s.saves| {
        assert s'.saves[i] == s.saves[i];
      }
    }
  }

  // Phases that only a suspension leaves.
  ghost predicate LeftOnlyBySuspension(q: Phase) {
    && q(None)
    && forall r: Record | !r.status.Suspended? && !r.status.Preparing? :: q(Some(r))
  }

  lemma FailStays(s: State, r: Record, n: nat, q: Phase)
    requires Throughout(s, n, r.id, q) && LeftOnlyBySuspension(q)
    ensures Throughout(FailRuntime(s, r), n, r.id, q)
  {}

  lemma StartBackendStays(cfg: Config, s: State, r: Record, starts: bool, n: nat, q: Phase)
    requires Throughout(s, n, r.id, q) && LeftOnlyBySuspension(q)
    ensures Throughout(StartBackend(cfg, s, r, starts), n, r.id, q)
  {}

  lemma LaunchStays(cfg: Config, s: State, r: Record, w: Workload, gpus: nat, devices: seq<int>, a: Answers, n: nat,
                    q: Phase)
    requires Throughout(s, n, r.id, q) && LeftOnlyBySuspension(q)
    ensures Throughout(Launch(cfg, s, r, w, gpus, devices, a).state, n, r.id, q)
  {
    var named := Equipped(cfg, r, w, gpus, devices);
    var starting := named.(status := Starting);
    assert Throughout(Saved(s, starting), n, r.id, q);
    StartBackendStays(cfg, Saved(s, starting), starting, a.backendStarts, n, q);
    FailStays(s, if r.kind.Inference? then named else r, n, q);
  }

  lemma StartStays(cfg: Config, s: State, r: Record, w: Workload, a: Answers, n: nat, q: Phase)
    requires Throughout(s, n, r.id, q) && LeftOnlyBySuspension(q)
    ensures Throughout(StartRuntime(cfg, s, r, w, a).state, n, r.id, q)
  {
    FailStays(s, r, n, q);
    var g := StartGrant(cfg, s, r, w, a);
    if g.Granted? {
      LaunchStays(cfg, s.(alloc := g.after), r, w, GpusWanted(r.kind, w), g.devices, a, n, q);
    }
  }

  lemma DispatchStays(cfg: Config, s: State, lease: Lease, a: Answers, n: nat, q: Phase)
    requires Throughout(s, n, lease.deployment, q) && LeftOnlyBySuspension(q)
    ensures Throughout(DispatchGuarded(cfg, s, lease, a), n, lease.deployment, q)
  {
    if a.workload.Found? {
      var r := FreshRecord(lease, a.workload.workload);
      var s1 := Saved(s, r);
      assert Throughout(s1, n, r.id, q);
      FailStays(s1, r, n, q);
      StartStays(cfg, s1, r, a.workload.workload, a, n, q);
    }
  }

  lemma RetryStays(cfg: Config, s: State, r: Record, lease: Lease, a: Answers, n: nat, q: Phase)
    requires Throughout(s, n, r.id, q) && LeftOnlyBySuspension(q) && r.id == lease.deployment
    ensures Throughout(DispatchGuarded(cfg, Removed(TerminateRuntime(s, r, false), r.id), lease, a), n, r.id, q)
  {
    var s1 := TerminateRuntime(s, r, false);
    assert Throughout(s1, n, r.id, q);
    assert Throughout(Removed(s1, r.id), n, r.id, q);
    DispatchStays(cfg, Removed(s1, r.id), lease, a, n, q);
  }

  // A lease that is not a suspension order starts or retries, never suspends.
  lemma UnsuspendedLeaseStays(cfg: Config, s: State, lease: Lease, a: Answers, n: nat, q: Phase)
    requires WellFormed(s.store) && !lease.suspended
    requires Throughout(s, n, lease.deployment, q) && LeftOnlyBySuspension(q)
    requires forall r: Record | r.status.Suspended? :: !q(Some(r))
    ensures Throughout(HandleLease(cfg, s, lease, a).state, n, lease.deployment, q)
  {
    match Get(s.store, lease.deployment)
    case None => DispatchStays(cfg, s, lease, a, n, q);
    case Some(r) =>
      assert r.id == lease.deployment;
      RetryStays(cfg, s, r, lease, a, n, q);
  }

  // ------------------------------------------------------------- passes, by phase

  // The lease loop and both per-record loops keep phase q of `d`, given that their
  // own iteration for `d` does.
  lemma ReconcileStays(cfg: Config, s: State, inp: PassInput, d: string, q: Phase)
    requires Exclusive(cfg, s) && q(Get(s.store, d))
    requires forall x: State, j: nat | j < |Mine(cfg, Leases(inp))| && Mine(cfg, Leases(inp))[j].deployment == d
                && Exclusive(cfg, x) && Throughout(x, |s.saves|, d, q) ::
                Throughout(HandleLease(cfg, x, Mine(cfg, Leases(inp))[j], inp.answers(j)).state, |s.saves|, d, q)
    requires forall x: State | Exclusive(cfg, x) && Throughout(x, |s.saves|, d, q) ::
                Throughout(CleanupOne(x, d, Deployments(Mine(cfg, Leases(inp))), Deployments(Leases(inp)),
                                      inp.deployment(d)), |s.saves|, d, q)
    ensures Throughout(Reconcile(cfg, s, inp), |s.saves|, d, q)
  {
    var n := |s.saves|;
    var P := (x: State) => Exclusive(cfg, x) && Throughout(x, n, d, q);
    var mine := Mine(cfg, Leases(inp));
    forall x: State, j: nat | j < |mine| && P(x) ensures P(HandleLease(cfg, x, mine[j], inp.answers(j)).state) {
      HandleLeaseKeeps(cfg, x, mine[j], inp.answers(j));
      if mine[j].deployment != d {
        HandleLeaseServes(cfg, x, mine[j], inp.answers(j));
        OthersKeep(x, HandleLease(cfg, x, mine[j], inp.answers(j)).state, mine[j].deployment, n, d, q);
      }
    }
    var active, fleet := Deployments(mine), Deployments(Leases(inp));
    forall ids ensures EachCleanupKeeps(ids, active, fleet, inp.deployment, P) {
      forall x: State, e | e in ids && P(x) ensures P(CleanupOne(x, e, active, fleet, inp.deployment(e))) {
        CleanupOneKeeps(cfg, x, e, active, fleet, inp.deployment(e));
        if e != d {
          CleanupOneServes(x, e, active, fleet, inp.deployment(e));
          OthersKeep(x, CleanupOne(x, e, active, fleet, inp.deployment(e)), e, n, d, q);
        }
      }
    }
    ReconcileKeeps(cfg, s, inp, P);
  }

  lemma RecoverStays(cfg: Config, s: State, dep: string -> DeploymentAnswer, d: string, q: Phase)
    requires Exclusive(cfg, s) && q(Get(s.store, d))
    requires forall x: State | Exclusive(cfg, x) && Throughout(x, |s.saves|, d, q) ::
                Throughout(RecoverOne(x, d, dep(d)), |s.saves|, d, q)
    ensures Throughout(Recover(s, dep), |s.saves|, d, q)
  {
    var n := |s.saves|;
    var P := (x: State) => Exclusive(cfg, x) && Throughout(x, n, d, q);
    forall x: State, e | e in s.store.order && P(x) ensures P(RecoverOne(x, e, dep(e))) {
      RecoverOneKeeps(cfg, x, e, dep(e));
      if e != d {
        RecoverOneServes(x, e, dep(e));
        OthersKeep(x, RecoverOne(x, e, dep(e)), e, n, d, q);
      }
    }
    RecoverLoopKeeps(s, s.store.order, dep, 0, P);
  }

  // Phase q of `d` after a pass from s to s', also when it is cut short by a crash.
  lemma CrashStays(s: State, s': State, k: nat, world: Docker, n: nat, d: string, q: Phase)
    requires Appends(s, s') && q(Get(s.store, d)) && Throughout(s', |s.saves|, d, q)
    ensures q(Get(CrashBetween(s, s', k, world, n).store, d))
  {}

  // One event keeps phase q of `d` when the pass it runs does, crash or not.
  lemma StepStays(cfg: Config, s: State, e: Event, d: string, q: Phase)
    requires q(Get(s.store, d))
    requires e.ReconcilePass? || e.CrashInReconcile? ==> Throughout(Reconcile(cfg, s, e.inp), |s.saves|, d, q)
    requires e.RecoveryPass? || e.CrashInRecovery? ==> Throughout(Recover(s, e.deployment), |s.saves|, d, q)
    requires e.UserTermination? ==> q(Get(UserTerminate(s, e.d).store, d))
    ensures q(Get(Step(cfg, s, e).store, d))
  {
    match e
    case CrashInReconcile(inp, k, world, n) =>
      PassOnlyAppends(cfg, s, inp);
      CrashStays(s, Reconcile(cfg, s, inp), k, world, n, d, q);
    case CrashInRecovery(dep, k, world, n) =>
      RecoveryOnlyAppends(s, dep);
      CrashStays(s, Recover(s, dep), k, world, n, d, q);
    case _ =>
  }

  // ------------------------------------------------------------------- results

  predicate IsOver(o: Option<Record>) {
    o.Some? && (o.value.status.Failed? || o.value.status.Terminated?)
  }

  predicate NotSuspended(o: Option<Record>) {
    o.None? || !o.value.status.Suspended?
  }

  // The control plane marked a lease of `d` on this node as suspended.
  ghost predicate OrdersSuspension(cfg: Config, e: Event, d: string) {
    && (e.ReconcilePass? || e.CrashInReconcile?)
    && exists l :: l in Leases(e.inp) && IsMine(cfg, l) && l.deployment == d && l.suspended
  }

  lemma UserTerminationStays(s: State, e: Event, d: string)
    requires WellFormed(s.store)
    ensures e.UserTermination? && IsOver(Get(s.store, d)) ==> IsOver(Get(UserTerminate(s, e.d).store, d))
    ensures e.UserTermination? && NotSuspended(Get(s.store, d)) ==> NotSuspended(Get(UserTerminate(s, e.d).store, d))
  {}

  lemma TerminatedStep(cfg: Config, s: State, e: Event, d: string)
    requires Exclusive(cfg, s) && Get(s.store, d).Some? && Get(s.store, d).value.status.Terminated?
    ensures Get(Step(cfg, s, e).store, d) == Get(s.store, d)
  {
    var q: Phase := o => o == Get(s.store, d);
    if e.ReconcilePass? || e.CrashInReconcile? {
      ReconcileStays(cfg, s, e.inp, d, q);
    } else if e.RecoveryPass? || e.CrashInRecovery? {
      RecoverStays(cfg, s, e.deployment, d, q);
    }
    StepStays(cfg, s, e, d, q);
  }

  // A terminated record stays terminated, as it is, forever.
  lemma {:induction false} TerminatedIsForever(cfg: Config, s: State, events: seq<Event>, d: string)
    requires Exclusive(cfg, s) && Get(s.store, d).Some? && Get(s.store, d).value.status.Terminated?
    ensures Get(Run(cfg, s, events).store, d) == Get(s.store, d)
    decreases |events|
  {
    if events != [] {
      TerminatedStep(cfg, s, events[0], d);
      StepKeepsExclusive(cfg, s, events[0]);
      TerminatedIsForever(cfg, Step(cfg, s, events[0]), events[1..], d);
    }
  }

  lemma OverReconcile(cfg: Config, s: State, inp: PassInput, d: string, q: Phase)
    requires Exclusive(cfg, s) && q == IsOver && q(Get(s.store, d))
    ensures Throughout(Reconcile(cfg, s, inp), |s.saves|, d, q)
  {
    ReconcileStays(cfg, s, inp, d, q);
  }

  lemma OverRecovery(cfg: Config, s: State, dep: string -> DeploymentAnswer, d: string, q: Phase)
    requires Exclusive(cfg, s) && q == IsOver && q(Get(s.store, d))
    ensures Throughout(Recover(s, dep), |s.saves|, d, q)
  {
    RecoverStays(cfg, s, dep, d, q);
  }

  lemma OverStep(cfg: Config, s: State, e: Event, d: string)
    requires Exclusive(cfg, s) && IsOver(Get(s.store, d))
    ensures IsOver(Get(Step(cfg, s, e).store, d))
  {
    var q: Phase := IsOver;
    UserTerminationStays(s, e, d);
    if e.ReconcilePass? || e.CrashInReconcile? {
      OverReconcile(cfg, s, e.inp, d, q);
    } else if e.RecoveryPass? || e.CrashInRecovery? {
      OverRecovery(cfg, s, e.deployment, d, q);
    }
    StepStays(cfg, s, e, d, q);
  }

  // A failed record only stays failed or becomes terminated; it never comes back.
  lemma {:induction false} FailedNeverRevives(cfg: Config, s: State, events: seq<Event>, d: string)
    requires Exclusive(cfg, s) && IsOver(Get(s.store, d))
    ensures IsOver(Get(Run(cfg, s, events).store, d))
    decreases |events|
  {
    if events != [] {
      OverStep(cfg, s, events[0], d);
      StepKeepsExclusive(cfg, s, events[0]);
      FailedNeverRevives(cfg, Step(cfg, s, events[0]), events[1..], d);
    }
  }

  lemma UnorderedPass(cfg: Config, s: State, inp: PassInput, d: string, q: Phase)
    requires Exclusive(cfg, s) && q == NotSuspended && q(Get(s.store, d))
    requires forall l | l in Leases(inp) && IsMine(cfg, l) && l.deployment == d :: !l.suspended
    ensures Throughout(Reconcile(cfg, s, inp), |s.saves|, d, q)
  {
    var n, mine := |s.saves|, Mine(cfg, Leases(inp));
    forall x: State, j: nat | j < |mine| && mine[j].deployment == d && Exclusive(cfg, x) && Throughout(x, n, d, q)
      ensures Throughout(HandleLease(cfg, x, mine[j], inp.answers(j)).state, n, d, q)
    {
      assert mine[j] in mine;
      UnsuspendedLeaseStays(cfg, x, mine[j], inp.answers(j), n, q);
    }
    ReconcileStays(cfg, s, inp, d, q);
  }

  lemma UnorderedRecovery(cfg: Config, s: State, dep: string -> DeploymentAnswer, d: string, q: Phase)
    requires Exclusive(cfg, s) && q == NotSuspended && q(Get(s.store, d))
    ensures Throughout(Recover(s, dep), |s.saves|, d, q)
  {
    RecoverStays(cfg, s, dep, d, q);
  }

  lemma UnorderedStep(cfg: Config, s: State, e: Event, d: string)
    requires Exclusive(cfg, s) && NotSuspended(Get(s.store, d)) && !OrdersSuspension(cfg, e, d)
    ensures NotSuspended(Get(Step(cfg, s, e).store, d))
  {
    var q: Phase := NotSuspended;
    UserTerminationStays(s, e, d);
    if e.ReconcilePass? || e.CrashInReconcile? {
      UnorderedPass(cfg, s, e.inp, d, q);
    } else if e.RecoveryPass? || e.CrashInRecovery? {
      UnorderedRecovery(cfg, s, e.deployment, d, q);
    }
    StepStays(cfg, s, e, d, q);
  }

  // The safety promise of pod-safe suspend: a runtime becomes suspended only under
  // a lease on this node that the control plane explicitly marked suspended.
  lemma {:induction false} OnlyOrdersSuspend(cfg: Config, s: State, events: seq<Event>, d: string)
    requires Exclusive(cfg, s) && NotSuspended(Get(s.store, d))
    requires forall e | e in events :: !OrdersSuspension(cfg, e, d)
    ensures NotSuspended(Get(Run(cfg, s, events).store, d))
    decreases |events|
  {
    if events != [] {
      assert events[0] in events;
      assert forall e | e in events[1..] :: e in events;
      UnorderedStep(cfg, s, events[0], d);
      StepKeepsExclusive(cfg, s, events[0]);
      OnlyOrdersSuspend(cfg, Step(cfg, s, events[0]), events[1..], d);
    }
  }

  // ------------------------------------------------- the status nothing ever gets

  predicate NotPreparing(o: Option<Record>) {
    o.None? || !o.value.status.Preparing?
  }

  lemma SuspendPreparesNothing(s: State, r: Record, n: nat, q: Phase)
    requires q == NotPreparing && Throughout(s, n, r.id, q)
    ensures Throughout(SuspendRuntime(s, r), n, r.id, q)
  {}

  lemma ResumePreparesNothing(cfg: Config, s: State, r: Record, a: Answers, n: nat, q: Phase)
    requires q == NotPreparing && Throughout(s, n, r.id, q)
    ensures Throughout(ResumeRuntime(cfg, s, r, a).state, n, r.id, q)
  {
    match ResumeGrant(cfg, s, r, a)
    case Refused =>
    case Granted(devices, after) =>
      var s1 := s.(alloc := after);
      assert Throughout(ResumePod(s1, r, devices, a), n, r.id, q);
      if a.workload.Found? {
        var r1 := r.(status := Accepted);
        StartStays(cfg, Saved(FreedGpus(s1, r.id), r1), r1, a.workload.workload, a, n, q);
      }
  }

  lemma LeasePreparesNothing(cfg: Config, s: State, lease: Lease, a: Answers, n: nat, q: Phase)
    requires WellFormed(s.store) && q == NotPreparing && Throughout(s, n, lease.deployment, q)
    ensures Throughout(HandleLease(cfg, s, lease, a).state, n, lease.deployment, q)
  {
    match Get(s.store, lease.deployment)
    case None => DispatchStays(cfg, s, lease, a, n, q);
    case Some(r) =>
      assert r.id == lease.deployment;
      SuspendPreparesNothing(s, r, n, q);
      ResumePreparesNothing(cfg, s, r, a, n, q);
      RetryStays(cfg, s, r, lease, a, n, q);
  }

  lemma CleanupPreparesNothing(s: State, d: string, active: set<string>, fleet: set<string>, dep: DeploymentAnswer,
                               n: nat, q: Phase)
    requires WellFormed(s.store) && q == NotPreparing && Throughout(s, n, d, q)
    ensures Throughout(CleanupOne(s, d, active, fleet, dep), n, d, q)
  {}

  lemma ReconcilePreparesNothing(cfg: Config, s: State, inp: PassInput, d: string, q: Phase)
    requires Exclusive(cfg, s) && q == NotPreparing && q(Get(s.store, d))
    ensures Throughout(Reconcile(cfg, s, inp), |s.saves|, d, q)
  {
    var n, mine := |s.saves|, Mine(cfg, Leases(inp));
    forall x: State, j: nat | j < |mine| && mine[j].deployment == d && Exclusive(cfg, x) && Throughout(x, n, d, q)
      ensures Throughout(HandleLease(cfg, x, mine[j], inp.answers(j)).state, n, d, q)
    {
      LeasePreparesNothing(cfg, x, mine[j], inp.answers(j), n, q);
    }
    var active, fleet := Deployments(mine), Deployments(Leases(inp));
    forall x: State | Exclusive(cfg, x) && Throughout(x, n, d, q)
      ensures Throughout(CleanupOne(x, d, active, fleet, inp.deployment(d)), n, d, q)
    {
      CleanupPreparesNothing(x, d, active, fleet, inp.deployment(d), n, q);
    }
    ReconcileStays(cfg, s, inp, d, q);
  }

  lemma RecoverPreparesNothing(cfg: Config, s: State, dep: string -> DeploymentAnswer, d: string, q: Phase)
    requires Exclusive(cfg, s) && q == NotPreparing && q(Get(s.store, d))
    ensures Throughout(Recover(s, dep), |s.saves|, d, q)
  {
    RecoverStays(cfg, s, dep, d, q);
  }

  // With the files of before, also when only the first k are written.
  lemma FilesInAll(s: State, s': State, k: nat, d: string, q: Phase)
    requires Appends(s, s') && Throughout(s, 0, d, q) && Throughout(s', |s.saves|, d, q) && k <= |s'.saves|
    ensures forall i | 0 <= i < k :: q(Get(s'.saves[i], d))
  {
    forall i | 0 <= i < k ensures q(Get(s'.saves[i], d)) {
      if i < |s.saves| {
        assert s'.saves[i] == s.saves[i];
      }
    }
  }

  lemma StepPreparesNothing(cfg: Config, s: State, e: Event, d: string, q: Phase)
    requires Exclusive(cfg, s) && q == NotPreparing && Throughout(s, 0, d, q)
    ensures Throughout(Step(cfg, s, e), 0, d, q)
  {
    if e.ReconcilePass? || e.CrashInReconcile? {
      ReconcilePreparesNothing(cfg, s, e.inp, d, q);
      PassOnlyAppends(cfg, s, e.inp);
      FilesInAll(s, Reconcile(cfg, s, e.inp), |Step(cfg, s, e).saves|, d, q);
    } else if e.RecoveryPass? || e.CrashInRecovery? {
      RecoverPreparesNothing(cfg, s, e.deployment, d, q);
      RecoveryOnlyAppends(s, e.deployment);
      FilesInAll(s, Recover(s, e.deployment), |Step(cfg, s, e).saves|, d, q);
    }
    StepStays(cfg, s, e, d, q);
  }

  // No record of a run, and no state file written in it, is ever `preparing`.
  lemma {:induction false} NothingIsEverPreparing(cfg: Config, s: State, events: seq<Event>, d: string)
    requires Exclusive(cfg, s) && Throughout(s, 0, d, NotPreparing)
    ensures Throughout(Run(cfg, s, events), 0, d, NotPreparing)
    decreases |events|
  {
    if events != [] {
      StepPreparesNothing(cfg, s, events[0], d, NotPreparing);
      StepKeepsExclusive(cfg, s, events[0]);
      NothingIsEverPreparing(cfg, Step(cfg, s, events[0]), events[1..], d);
    }
  }
}
