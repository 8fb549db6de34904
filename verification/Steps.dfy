/** Frames of single steps. Every step of a pass serves one deployment: starting,
    retrying, suspending, resuming, cleaning up or recovering it leaves the records,
    the state files as far as they are about others, the allocator entries and the
    reports of all the other deployments alone. */
module Steps {
  import opened Common
  import opened Repository
  import opened NodeModel

  ghost predicate Serves(s: State, s': State, d: string) {
    && (forall e | e != d :: Get(s'.store, e) == Get(s.store, e) && Lookup(s'.alloc, e) == Lookup(s.alloc, e))
    && s.saves <= s'.saves
    && (forall i, e | |s.saves| <= i < |s'.saves| && e != d :: Get(s'.saves[i], e) == Get(s.store, e))
    && s.log <= s'.log
    && (forall i | |s.log| <= i < |s'.log| :: s'.log[i].deployment == d)
  }

  lemma ServesInTurn(s: State, t: State, u: State, d: string)
    requires Serves(s, t, d) && Serves(t, u, d)
    ensures Serves(s, u, d)
  {
    forall i, e | |s.saves| <= i < |u.saves| && e != d ensures Get(u.saves[i], e) == Get(s.store, e) {
      if i < |t.saves| {
        assert u.saves[i] == t.saves[i];
      }
    }
    forall i | |s.log| <= i < |u.log| ensures u.log[i].deployment == d {
      if i < |t.log| {
        assert u.log[i] == t.log[i];
      }
    }
  }

  lemma FailServes(s: State, r: Record)
    ensures Serves(s, FailRuntime(s, r), r.id)
  {}

  lemma TerminateServes(s: State, r: Record, report: bool)
    ensures Serves(s, TerminateRuntime(s, r, report), r.id)
  {}

  lemma SuspendServes(s: State, r: Record)
    ensures Serves(s, SuspendRuntime(s, r), r.id)
  {}

  lemma StartBackendServes(cfg: Config, s: State, r: Record, starts: bool)
    ensures Serves(s, StartBackend(cfg, s, r, starts), r.id)
  {
    if !starts {
      FailServes(if r.kind.Vm? then s else s.(docker := RemoveNamed(s.docker, r.id, r.kind)), r);
    }
  }

  lemma LaunchServes(cfg: Config, s: State, r: Record, w: Workload, gpus: nat, devices: seq<int>, a: Answers)
    ensures Serves(s, Launch(cfg, s, r, w, gpus, devices, a).state, r.id)
  {
    var named := Equipped(cfg, r, w, gpus, devices);
    var preparation := if r.kind.Vm? then Prepared else a.preparation;
    match preparation
    case Prepared =>
      var starting := named.(status := Starting);
      StartBackendServes(cfg, Saved(s, starting), starting, a.backendStarts);
      ServesInTurn(s, Saved(s, starting), StartBackend(cfg, Saved(s, starting), starting, a.backendStarts), r.id);
    case DeclaredError =>
      FailServes(s, if r.kind.Inference? then named else r);
    case UnexpectedError =>
  }

  lemma StartServes(cfg: Config, s: State, r: Record, w: Workload, a: Answers)
    ensures Serves(s, StartRuntime(cfg, s, r, w, a).state, r.id)
  {
    var g := StartGrant(cfg, s, r, w, a);
    FailServes(s, r);
    if g.Granted? {
      var s1 := s.(alloc := g.after);
      LaunchServes(cfg, s1, r, w, GpusWanted(r.kind, w), g.devices, a);
      ServesInTurn(s, s1, Launch(cfg, s1, r, w, GpusWanted(r.kind, w), g.devices, a).state, r.id);
    }
  }

  lemma ResumePodServes(s: State, r: Record, devices: seq<int>, a: Answers)
    ensures Serves(s, ResumePod(s, r, devices, a), r.id)
  {}

  lemma RestartServes(cfg: Config, s: State, r: Record, w: Workload, a: Answers)
    ensures Serves(s, StartRuntime(cfg, Saved(s, r), r, w, a).state, r.id)
  {
    var s1 := Saved(s, r);
    StartServes(cfg, s1, r, w, a);
    ServesInTurn(s, s1, StartRuntime(cfg, s1, r, w, a).state, r.id);
  }

  lemma RedispatchServes(cfg: Config, s: State, r: Record, a: Answers)
    ensures Serves(s, Redispatch(cfg, s, r, a).state, r.id)
  {
    if a.workload.Found? && (r.kind.Inference? || r.kind.Vm?) {
      RestartServes(cfg, s, r.(status := Accepted), a.workload.workload, a);
    }
  }

  lemma ResumeServes(cfg: Config, s: State, r: Record, a: Answers)
    ensures Serves(s, ResumeRuntime(cfg, s, r, a).state, r.id)
  {
    var g := ResumeGrant(cfg, s, r, a);
    if g.Granted? {
      var s1 := s.(alloc := g.after);
      var s2 := FreedGpus(s1, r.id);
      assert Serves(s, s1, r.id) && Serves(s, s2, r.id);
      ResumePodServes(s1, r, g.devices, a);
      ServesInTurn(s, s1, ResumePod(s1, r, g.devices, a), r.id);
      RedispatchServes(cfg, s2, r, a);
      ServesInTurn(s, s2, Redispatch(cfg, s2, r, a).state, r.id);
    }
  }

  lemma DispatchServes(cfg: Config, s: State, lease: Lease, a: Answers)
    ensures Serves(s, DispatchGuarded(cfg, s, lease, a), lease.deployment)
  {
    var d := lease.deployment;
    if a.workload.Found? {
      var w := a.workload.workload;
      var r := FreshRecord(lease, w);
      var s1 := Saved(s, r);
      if w.kind.Unsupported? {
        FailServes(s1, r);
        ServesInTurn(s, s1, FailRuntime(s1, r), d);
      } else {
        StartServes(cfg, s1, r, w, a);
        var s2 := StartRuntime(cfg, s1, r, w, a).state;
        ServesInTurn(s, s1, s2, d);
        ServesInTurn(s, s2, Reported(s2, d, DFailed), d);
      }
    }
  }

  lemma RetryServes(cfg: Config, s: State, r: Record, lease: Lease, a: Answers)
    requires r.id == lease.deployment
    ensures Serves(s, DispatchGuarded(cfg, Removed(TerminateRuntime(s, r, false), r.id), lease, a), r.id)
  {
    var s1 := TerminateRuntime(s, r, false);
    TerminateServes(s, r, false);
    ServesInTurn(s, s1, Removed(s1, r.id), r.id);
    DispatchServes(cfg, Removed(s1, r.id), lease, a);
    ServesInTurn(s, Removed(s1, r.id), DispatchGuarded(cfg, Removed(s1, r.id), lease, a), r.id);
  }

  lemma HandleLeaseServes(cfg: Config, s: State, lease: Lease, a: Answers)
    requires WellFormed(s.store)
    ensures Serves(s, HandleLease(cfg, s, lease, a).state, lease.deployment)
  {
    match Get(s.store, lease.deployment)
    case None =>
      DispatchServes(cfg, s, lease, a);
    case Some(r) =>
      assert r.id == lease.deployment;
      SuspendServes(s, r);
      if r.status.Suspended? {
        ResumeServes(cfg, s, r, a);
      } else {
        RetryServes(cfg, s, r, lease, a);
      }
  }

  lemma CleanupOneServes(s: State, d: string, active: set<string>, fleet: set<string>, dep: DeploymentAnswer)
    requires WellFormed(s.store)
    ensures Serves(s, CleanupOne(s, d, active, fleet, dep), d)
  {
    match Get(s.store, d)
    case None =>
    case Some(r) =>
      assert r.id == d;
      if r.status.Suspended? {
        ReapServes(s, r);
      } else {
        TerminateServes(s, r, d !in fleet);
      }
  }

  lemma ReapServes(s: State, r: Record)
    ensures Serves(s, Removed(TerminateRuntime(s, r, true), r.id), r.id)
  {
    var s1 := TerminateRuntime(s, r, true);
    TerminateServes(s, r, true);
    ServesInTurn(s, s1, Removed(s1, r.id), r.id);
  }

  lemma RecoverOneServes(s: State, d: string, dep: DeploymentAnswer)
    requires WellFormed(s.store)
    ensures Serves(s, RecoverOne(s, d, dep), d)
  {
    match Get(s.store, d)
    case None =>
    case Some(r) =>
      assert r.id == d;
      TerminateServes(s, r, true);
      TerminateServes(s, r, false);
  }
}
