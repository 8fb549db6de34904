/** What the control plane was last told about a deployment is what its record says:
    after every pass and recovery, for every ready, failed or suspended record, as long
    as the process is not killed inside a pass. */
module FaithfulReports {
  import opened Common
  import opened Repository
  import opened NodeModel
  import opened Loops
  import opened Steps
  import opened WellFormedSteps
  import opened Runs

  // The latest report about `d`.
  function LastReport(log: seq<Report>, d: string): Option<DeploymentState> {
    if log == [] then None
    else if log[|log| - 1].deployment == d then Some(log[|log| - 1].state)
    else LastReport(log[..|log| - 1], d)
  }

  lemma LastReportOf(log: seq<Report>, d: string, state: DeploymentState, e: string)
    ensures LastReport(log + [Report(d, state)], e) == if d == e then Some(state) else LastReport(log, e)
  {
    assert (log + [Report(d, state)])[..|log + [Report(d, state)]| - 1] == log;
  }

  lemma {:induction false} OthersUnheard(log: seq<Report>, more: seq<Report>, d: string)
    requires log <= more && forall i | |log| <= i < |more| :: more[i].deployment != d
    ensures LastReport(more, d) == LastReport(log, d)
    decreases |more|
  {
    if |more| == |log| {
      assert more == log;
    } else {
      OthersUnheard(log, more[..|more| - 1], d);
      assert more[|more| - 1].deployment != d;
    }
  }

  ghost predicate Told(s: State, d: string) {
    match Get(s.store, d)
    case None => true
    case Some(r) =>
      match r.status
      case Ready => LastReport(s.log, d) == Some(DReady)
      case Failed => LastReport(s.log, d) == Some(DFailed)
      case Suspended => LastReport(s.log, d) == Some(DSuspended)
      case _ => true
  }

  ghost predicate Faithful(s: State) {
    WellFormed(s.store) && forall d :: Told(s, d)
  }

  // ------------------------------------------------------------------- handlers

  lemma SaveThenReport(s: State, r: Record, state: DeploymentState)
    requires r.status.Ready? ==> state.DReady?
    requires r.status.Failed? ==> state.DFailed?
    requires r.status.Suspended? ==> state.DSuspended?
    ensures Told(Reported(Saved(s, r), r.id, state), r.id)
  {
    LastReportOf(s.log, r.id, state, r.id);
  }

  lemma FailTold(s: State, r: Record)
    ensures Told(FailRuntime(s, r), r.id)
  {
    SaveThenReport(FreedGpus(s, r.id), r.(status := Failed), DFailed);
  }

  lemma SuspendTold(s: State, r: Record)
    ensures Told(SuspendRuntime(s, r), r.id)
  {
    SaveThenReport(FreedGpus(s, r.id).(docker := SuspendedDocker(s.docker, r)), SuspendedRecord(r), DSuspended);
  }

  lemma StartBackendTold(cfg: Config, s: State, r: Record, starts: bool)
    ensures Told(StartBackend(cfg, s, r, starts), r.id)
  {
    if !starts {
      FailTold(if r.kind.Vm? then s else s.(docker := RemoveNamed(s.docker, r.id, r.kind)), r);
    } else if r.kind.Vm? {
      SaveThenReport(s, r.(status := Ready, vm := true), DReady);
    } else {
      var cleaned := RemoveNamed(s.docker, r.id, r.kind);
      var run := RunNew(cleaned, Container(r.id, r.kind, PassedThrough(cfg, r), true));
      SaveThenReport(s.(docker := run), r.(status := Ready, container := Some(cleaned.nextId)), DReady);
    }
  }

  lemma LaunchTold(cfg: Config, s: State, r: Record, w: Workload, gpus: nat, devices: seq<int>, a: Answers)
    requires Told(s, r.id)
    ensures Told(Launch(cfg, s, r, w, gpus, devices, a).state, r.id)
  {
    var named := Equipped(cfg, r, w, gpus, devices);
    var starting := named.(status := Status.Starting);
    StartBackendTold(cfg, Saved(s, starting), starting, a.backendStarts);
    FailTold(s, if r.kind.Inference? then named else r);
  }

  lemma StartTold(cfg: Config, s: State, r: Record, w: Workload, a: Answers)
    requires Told(s, r.id)
    ensures Told(StartRuntime(cfg, s, r, w, a).state, r.id)
  {
    FailTold(s, r);
    match StartGrant(cfg, s, r, w, a)
    case Refused =>
    case Granted(devices, after) => LaunchTold(cfg, s.(alloc := after), r, w, GpusWanted(r.kind, w), devices, a);
  }

  // A fresh dispatch: no record yet, or the stuck one was just removed.
  lemma DispatchTold(cfg: Config, s: State, lease: Lease, a: Answers)
    requires Get(s.store, lease.deployment).None?
    ensures Told(DispatchGuarded(cfg, s, lease, a), lease.deployment)
  {
    if a.workload.Found? {
      var w := a.workload.workload;
      var r := FreshRecord(lease, w);
      if w.kind.Unsupported? {
        FailTold(Saved(s, r), r);
        assert Dispatch(cfg, s, lease, a) == Done(FailRuntime(Saved(s, r), r));
      } else {
        var o := StartRuntime(cfg, Saved(s, r), r, w, a);
        StartTold(cfg, Saved(s, r), r, w, a);
        CrashLeavesAccepted(cfg, Saved(s, r), r, w, a);
        assert Dispatch(cfg, s, lease, a) == o;
      }
    }
  }

  // An escaping exception leaves the record as the start found it.
  lemma CrashLeavesAccepted(cfg: Config, s: State, r: Record, w: Workload, a: Answers)
    ensures var o := StartRuntime(cfg, s, r, w, a); o.Crashed? ==> o.state.store == s.store
  {}

  lemma ResumeTold(cfg: Config, s: State, r: Record, a: Answers)
    requires Get(s.store, r.id) == Some(r) && r.status.Suspended? && Told(s, r.id)
    ensures Told(ResumeRuntime(cfg, s, r, a).state, r.id)
  {
    match ResumeGrant(cfg, s, r, a)
    case Refused =>
    case Granted(devices, after) =>
      var s1 := s.(alloc := after);
      if r.kind.Pod? {
        ResumePodTold(s1, r, devices, a);
      } else if a.workload.Found? {
        var r1 := r.(status := Accepted);
        StartTold(cfg, Saved(FreedGpus(s1, r.id), r1), r1, a.workload.workload, a);
      }
  }

  // Staying suspended is no news: the last report already says so.
  lemma ResumePodTold(s: State, r: Record, devices: seq<int>, a: Answers)
    requires LastReport(s.log, r.id) == Some(DSuspended)
    ensures Told(ResumePod(s, r, devices, a), r.id)
  {
    if PodResumes(s.docker, r, a) {
      var r1 := r.(gpuDevices := devices, gpuCount := Some(ResumeGpuCount(r)));
      SaveThenReport(s.(docker := SetRunning(s.docker, r.container, true)), r1.(status := Ready), DReady);
    }
  }

  lemma HandleLeaseTold(cfg: Config, s: State, lease: Lease, a: Answers)
    requires Faithful(s)
    ensures Told(HandleLease(cfg, s, lease, a).state, lease.deployment)
  {
    match Get(s.store, lease.deployment)
    case None => DispatchTold(cfg, s, lease, a);
    case Some(r) =>
      assert r.id == lease.deployment && Told(s, r.id);
      if lease.suspended {
        SuspendTold(s, r);
      } else if r.status.Suspended? {
        ResumeTold(cfg, s, r, a);
      } else {
        DispatchTold(cfg, Removed(TerminateRuntime(s, r, false), lease.deployment), lease, a);
      }
  }

  // -------------------------------------------------------------- passes and runs

  lemma OthersStayTold(s: State, s': State, d: string)
    requires Faithful(s) && Serves(s, s', d) && WellFormed(s'.store) && Told(s', d)
    ensures Faithful(s')
  {
    forall e ensures Told(s', e) {
      if e != d {
        assert Told(s, e);
        OthersUnheard(s.log, s'.log, e);
      }
    }
  }

  lemma LeaseStaysFaithful(cfg: Config, s: State, lease: Lease, a: Answers)
    requires Faithful(s)
    ensures Faithful(HandleLease(cfg, s, lease, a).state)
  {
    HandleLeaseServes(cfg, s, lease, a);
    LeaseStaysWellFormed(cfg, s, lease, a);
    HandleLeaseTold(cfg, s, lease, a);
    OthersStayTold(s, HandleLease(cfg, s, lease, a).state, lease.deployment);
  }

  lemma CleanupStaysFaithful(s: State, d: string, active: set<string>, fleet: set<string>, dep: DeploymentAnswer)
    requires Faithful(s)
    ensures Faithful(CleanupOne(s, d, active, fleet, dep))
  {
    CleanupOneServes(s, d, active, fleet, dep);
    CleanupStaysWellFormed(s, d, active, fleet, dep);
    assert Told(s, d);
    OthersStayTold(s, CleanupOne(s, d, active, fleet, dep), d);
  }

  lemma RecoverStaysFaithful(s: State, d: string, dep: DeploymentAnswer)
    requires Faithful(s)
    ensures Faithful(RecoverOne(s, d, dep))
  {
    RecoverOneServes(s, d, dep);
    RecoverStaysWellFormed(s, d, dep);
    assert Told(s, d);
    OthersStayTold(s, RecoverOne(s, d, dep), d);
  }

  lemma ReconcileStaysFaithful(cfg: Config, s: State, inp: PassInput)
    requires Faithful(s)
    ensures Faithful(Reconcile(cfg, s, inp))
  {
    var mine := Mine(cfg, Leases(inp));
    var active, fleet := Deployments(mine), Deployments(Leases(inp));
    forall x: State, j: nat | j < |mine| && Faithful(x)
      ensures Faithful(HandleLease(cfg, x, mine[j], inp.answers(j)).state)
    {
      LeaseStaysFaithful(cfg, x, mine[j], inp.answers(j));
    }
    forall x: State, d | Faithful(x) ensures Faithful(CleanupOne(x, d, active, fleet, inp.deployment(d))) {
      CleanupStaysFaithful(x, d, active, fleet, inp.deployment(d));
    }
    ReconcileKeeps(cfg, s, inp, x => Faithful(x));
  }

  lemma StepStaysFaithful(cfg: Config, s: State, e: Event)
    requires Faithful(s) && !IsCrash(e)
    ensures Faithful(Step(cfg, s, e))
  {
    match e
    case ReconcilePass(inp) => ReconcileStaysFaithful(cfg, s, inp);
    case RecoveryPass(dep) =>
      forall x: State, d | Faithful(x) ensures Faithful(RecoverOne(x, d, dep(d))) {
        RecoverStaysFaithful(x, d, dep(d));
      }
      RecoverLoopKeeps(s, s.store.order, dep, 0, x => Faithful(x));
    case UserTermination(d) =>
      if Get(s.store, d).Some? {
        var r := s.store.runtimes[d];
        TerminateServes(s, r, true);
        TerminateStaysWellFormed(s, r, true);
        OthersStayTold(s, TerminateRuntime(s, r, true), d);
      }
    case HeartbeatTick(_) =>
    case QuietRestart =>
      forall d ensures Told(Restart(s, s.store), d) {
        assert Told(s, d);
      }
  }

  // Over any run whose process is not killed inside a pass: a ready, failed or
  // suspended record is exactly what the control plane was told last.
  lemma {:induction false} ReportsAreFaithful(cfg: Config, s: State, events: seq<Event>)
    requires Faithful(s) && forall e | e in events :: !IsCrash(e)
    ensures Faithful(Run(cfg, s, events))
    decreases |events|
  {
    if events != [] {
      assert events[0] in events;
      assert forall e | e in events[1..] :: e in events;
      StepStaysFaithful(cfg, s, events[0]);
      ReportsAreFaithful(cfg, Step(cfg, s, events[0]), events[1..]);
    }
  }
}
