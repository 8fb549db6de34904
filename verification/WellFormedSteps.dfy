/** The shape of the records. Every step of a pass, whatever is answered, leaves the
    repository a dict of records filed under their own ids and listed once each in
    dict order; the snapshots the loops iterate over rest on this. One lemma for each
    step, split by branch. */
module WellFormedSteps {
  import opened Common
  import opened Repository
  import opened NodeModel

  lemma SavedStaysWellFormed(s: State, r: Record)
    requires WellFormed(s.store)
    ensures WellFormed(Saved(s, r).store)
  {
    PutKeepsWellFormed(s.store, r);
  }

  lemma FailStaysWellFormed(s: State, r: Record)
    requires WellFormed(s.store)
    ensures WellFormed(FailRuntime(s, r).store)
  {
    PutKeepsWellFormed(s.store, r.(status := Failed));
  }

  lemma TerminateStaysWellFormed(s: State, r: Record, report: bool)
    requires WellFormed(s.store)
    ensures WellFormed(TerminateRuntime(s, r, report).store)
    ensures WellFormed(Removed(TerminateRuntime(s, r, report), r.id).store)
  {
    PutKeepsWellFormed(s.store, r.(status := Terminated));
    DropKeepsWellFormed(TerminateRuntime(s, r, report).store, r.id);
  }

  lemma CleanupStaysWellFormed(s: State, d: string, active: set<string>, fleet: set<string>, dep: DeploymentAnswer)
    requires WellFormed(s.store)
    ensures WellFormed(CleanupOne(s, d, active, fleet, dep).store)
  {
    var r := Get(s.store, d);
    if r.Some? {
      assert r.value.id == d;
      TerminateStaysWellFormed(s, r.value, true);
      TerminateStaysWellFormed(s, r.value, d !in fleet);
    }
  }

  lemma RecoverStaysWellFormed(s: State, d: string, dep: DeploymentAnswer)
    requires WellFormed(s.store)
    ensures WellFormed(RecoverOne(s, d, dep).store)
  {
    var r := Get(s.store, d);
    if r.Some? {
      TerminateStaysWellFormed(s, r.value, true);
      TerminateStaysWellFormed(s, r.value, false);
    }
  }

  lemma StartBackendStaysWellFormed(cfg: Config, s: State, r: Record, starts: bool)
    requires WellFormed(s.store)
    ensures WellFormed(StartBackend(cfg, s, r, starts).store)
  {
    var s1 := if r.kind.Vm? then s else s.(docker := RemoveNamed(s.docker, r.id, r.kind));
    FailStaysWellFormed(s1, r);
    PutKeepsWellFormed(s.store, r.(status := Ready, vm := true));
    PutKeepsWellFormed(s.store, r.(status := Ready, container := Some(s1.docker.nextId)));
  }

  lemma LaunchStaysWellFormed(cfg: Config, s: State, r: Record, w: Workload, gpus: nat, devices: seq<int>, a: Answers)
    requires WellFormed(s.store)
    ensures WellFormed(Launch(cfg, s, r, w, gpus, devices, a).state.store)
  {
    var named := Equipped(cfg, r, w, gpus, devices);
    var starting := named.(status := Status.Starting);
    SavedStaysWellFormed(s, starting);
    StartBackendStaysWellFormed(cfg, Saved(s, starting), starting, a.backendStarts);
    FailStaysWellFormed(s, if r.kind.Inference? then named else r);
  }

  lemma StartStaysWellFormed(cfg: Config, s: State, r: Record, w: Workload, a: Answers)
    requires WellFormed(s.store)
    ensures WellFormed(StartRuntime(cfg, s, r, w, a).state.store)
  {
    FailStaysWellFormed(s, r);
    match StartGrant(cfg, s, r, w, a)
    case Refused =>
    case Granted(devices, after) =>
      LaunchStaysWellFormed(cfg, s.(alloc := after), r, w, GpusWanted(r.kind, w), devices, a);
  }

  lemma RestartStaysWellFormed(cfg: Config, s: State, r: Record, w: Workload, a: Answers)
    requires WellFormed(s.store)
    ensures WellFormed(StartRuntime(cfg, Saved(s, r), r, w, a).state.store)
  {
    SavedStaysWellFormed(s, r);
    StartStaysWellFormed(cfg, Saved(s, r), r, w, a);
  }

  lemma DispatchStaysWellFormed(cfg: Config, s: State, lease: Lease, a: Answers)
    requires WellFormed(s.store)
    ensures WellFormed(DispatchGuarded(cfg, s, lease, a).store)
  {
    if a.workload.Found? {
      var w := a.workload.workload;
      var r := FreshRecord(lease, w);
      if w.kind.Unsupported? {
        SavedStaysWellFormed(s, r);
        FailStaysWellFormed(Saved(s, r), r);
      } else {
        RestartStaysWellFormed(cfg, s, r, w, a);
        assert Dispatch(cfg, s, lease, a) == StartRuntime(cfg, Saved(s, r), r, w, a);
      }
    }
  }

  lemma ResumePodStaysWellFormed(s: State, r: Record, devices: seq<int>, a: Answers)
    requires WellFormed(s.store)
    ensures WellFormed(ResumePod(s, r, devices, a).store)
  {
    var r1 := r.(gpuDevices := devices, gpuCount := Some(ResumeGpuCount(r)));
    SavedStaysWellFormed(s, r1.(status := Ready));
    SavedStaysWellFormed(FreedGpus(s, r.id), r1.(status := Suspended));
  }

  lemma RedispatchStaysWellFormed(cfg: Config, s: State, r: Record, a: Answers)
    requires WellFormed(s.store)
    ensures WellFormed(Redispatch(cfg, s, r, a).state.store)
  {
    if a.workload.Found? {
      var r1 := r.(status := Accepted);
      SavedStaysWellFormed(s, r1);
      RestartStaysWellFormed(cfg, s, r1, a.workload.workload, a);
    }
  }

  lemma ResumeStaysWellFormed(cfg: Config, s: State, r: Record, a: Answers)
    requires WellFormed(s.store)
    ensures WellFormed(ResumeRuntime(cfg, s, r, a).state.store)
  {
    match ResumeGrant(cfg, s, r, a)
    case Refused =>
    case Granted(devices, after) =>
      var s1 := s.(alloc := after);
      if r.kind.Pod? {
        ResumePodStaysWellFormed(s1, r, devices, a);
      } else {
        RedispatchStaysWellFormed(cfg, FreedGpus(s1, r.id), r, a);
      }
  }

  lemma LeaseStaysWellFormed(cfg: Config, s: State, lease: Lease, a: Answers)
    requires WellFormed(s.store)
    ensures WellFormed(HandleLease(cfg, s, lease, a).state.store)
  {
    match Get(s.store, lease.deployment)
    case None => DispatchStaysWellFormed(cfg, s, lease, a);
    case Some(r) =>
      if lease.suspended {
        SavedStaysWellFormed(FreedGpus(s, r.id), SuspendedRecord(r));
      } else if r.status.Suspended? {
        ResumeStaysWellFormed(cfg, s, r, a);
      } else {
        assert r.id == lease.deployment;
        TerminateStaysWellFormed(s, r, false);
        DispatchStaysWellFormed(cfg, Removed(TerminateRuntime(s, r, false), lease.deployment), lease, a);
      }
  }
}
