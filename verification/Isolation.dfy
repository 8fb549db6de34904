/** Running containers that share no GPU, at any moment, between two writes of the
    records or not: what each docker operation of a pass (remove, run, stop, start)
    needs in order to keep the containers of different deployments apart. */
module Isolation {
  import opened Common
  import opened GpuAllocation
  import opened Repository
  import opened NodeModel
  import opened Exclusivity
  import opened Containers

  predicate Runs(dk: Docker, c: nat) {
    c in dk.containers && dk.containers[c].running
  }

  // No two running containers of different deployments see a common device.
  ghost predicate Isolated(dk: Docker) {
    forall c, e | Runs(dk, c) && Runs(dk, e) && dk.containers[c].owner != dk.containers[e].owner ::
      dk.containers[c].devices !! dk.containers[e].devices
  }

  // No running container of anybody but `d` sees one of the devices.
  ghost predicate Clear(dk: Docker, d: string, devices: set<int>) {
    forall c | Runs(dk, c) && dk.containers[c].owner != d :: dk.containers[c].devices !! devices
  }

  // Everybody else's running containers stay inside their own allocator entry.
  ghost predicate Pinned(s: State, d: string) {
    forall c | Runs(s.docker, c) && s.docker.containers[c].owner != d ::
      s.docker.containers[c].devices <= Entry(s.alloc, s.docker.containers[c].owner)
  }

  // Fewer running containers, the same as before.
  ghost predicate Quieter(dk: Docker, dk': Docker) {
    forall c | Runs(dk', c) :: Runs(dk, c) && dk'.containers[c].owner == dk.containers[c].owner
                               && dk'.containers[c].devices == dk.containers[c].devices
  }

  lemma QuieterKeeps(dk: Docker, dk': Docker, d: string, devices: set<int>)
    requires Quieter(dk, dk')
    ensures Isolated(dk) ==> Isolated(dk')
    ensures Clear(dk, d, devices) ==> Clear(dk', d, devices)
  {
    if Isolated(dk) {
      forall c, e | Runs(dk', c) && Runs(dk', e) && dk'.containers[c].owner != dk'.containers[e].owner
        ensures dk'.containers[c].devices !! dk'.containers[e].devices
      {
        assert Runs(dk, c) && Runs(dk, e);
      }
    }
  }

  // The record's own container can be started again without meeting anybody.
  ghost predicate Resumable(dk: Docker, r: Record) {
    r.container.Some? ==>
      && r.container.value in dk.containers && dk.containers[r.container.value].owner == r.id
      && Clear(dk, r.id, dk.containers[r.container.value].devices)
  }

  lemma SuspendingIsQuieter(dk: Docker, r: Record)
    ensures Quieter(dk, SuspendedDocker(dk, r))
  {}

  lemma TerminatingIsQuieter(s: State, r: Record, report: bool)
    ensures Quieter(s.docker, TerminateRuntime(s, r, report).docker)
  {}

  lemma RemovingIsQuieter(dk: Docker, owner: string, kind: Kind)
    ensures Quieter(dk, RemoveNamed(dk, owner, kind))
  {}

  lemma RunKeepsIsolated(dk: Docker, k: Container)
    requires Isolated(dk) && Clear(dk, k.owner, k.devices)
    ensures Isolated(RunNew(dk, k))
  {
    var dk' := RunNew(dk, k);
    forall c, e | Runs(dk', c) && Runs(dk', e) && dk'.containers[c].owner != dk'.containers[e].owner
      ensures dk'.containers[c].devices !! dk'.containers[e].devices
    {
      assert c != dk.nextId ==> Runs(dk, c) && dk'.containers[c] == dk.containers[c];
      assert e != dk.nextId ==> Runs(dk, e) && dk'.containers[e] == dk.containers[e];
    }
  }

  lemma RestartKeepsIsolated(dk: Docker, c: nat)
    requires Isolated(dk) && c in dk.containers && Clear(dk, dk.containers[c].owner, dk.containers[c].devices)
    ensures Isolated(SetRunning(dk, Some(c), true))
  {
    var dk' := SetRunning(dk, Some(c), true);
    forall b, e | Runs(dk', b) && Runs(dk', e) && dk'.containers[b].owner != dk'.containers[e].owner
      ensures dk'.containers[b].devices !! dk'.containers[e].devices
    {
      assert b != c ==> Runs(dk, b) && dk'.containers[b] == dk.containers[b];
      assert e != c ==> Runs(dk, e) && dk'.containers[e] == dk.containers[e];
    }
  }

  // ---------------------------------------------------------------- at sound states

  lemma SoundIsIsolated(cfg: Config, s: State)
    requires NodeOk(cfg, s)
    ensures Isolated(s.docker)
  {
    forall c, e | Runs(s.docker, c) && Runs(s.docker, e) && s.docker.containers[c].owner != s.docker.containers[e].owner
      ensures s.docker.containers[c].devices !! s.docker.containers[e].devices
    {
      RunningContainersAreIsolated(cfg, s, c, e);
    }
  }

  lemma SoundIsPinned(cfg: Config, s: State, d: string)
    requires NodeOk(cfg, s)
    ensures Pinned(s, d)
  {
    forall c | Runs(s.docker, c) && s.docker.containers[c].owner != d
      ensures s.docker.containers[c].devices <= Entry(s.alloc, s.docker.containers[c].owner)
    {
      assert ContainerOk(s, c) && Matches(s, s.docker.containers[c].owner);
    }
  }

  // A step for `d` that starts nothing leaves the others pinned.
  lemma PinnedAfter(s: State, s': State, d: string)
    requires Pinned(s, d) && Quieter(s.docker, s'.docker)
    requires forall e | e != d :: Lookup(s'.alloc, e) == Lookup(s.alloc, e)
    ensures Pinned(s', d)
  {
    forall c | Runs(s'.docker, c) && s'.docker.containers[c].owner != d
      ensures s'.docker.containers[c].devices <= Entry(s'.alloc, s'.docker.containers[c].owner)
    {
      assert Runs(s.docker, c);
      assert Lookup(s'.alloc, s.docker.containers[c].owner) == Lookup(s.alloc, s.docker.containers[c].owner);
    }
  }

  // What is free is in nobody's container.
  lemma FreeIsClear(cfg: Config, s: State, d: string, devices: set<int>)
    requires Pinned(s, d) && devices <= Free(cfg.totalGpus, s.alloc)
    ensures Clear(s.docker, d, devices)
  {
    forall c | Runs(s.docker, c) && s.docker.containers[c].owner != d
      ensures s.docker.containers[c].devices !! devices
    {
      var e := s.docker.containers[c].owner;
      assert Entry(s.alloc, e) <= Used(s.alloc);
    }
  }

  lemma StartGrantIsClear(cfg: Config, s: State, r: Record, w: Workload, a: Answers, g: Grant)
    requires Pinned(s, r.id) && g == StartGrant(cfg, s, r, w, a) && g.Granted?
    ensures Clear(s.docker, r.id, Elements(g.devices))
    ensures GpusWanted(r.kind, w) > 0 ==> g.devices != []
  {
    if GpusWanted(r.kind, w) > 0 {
      AllocateGrants(cfg.totalGpus, s.alloc, r.id, GpusWanted(r.kind, w), Foreign(s.alloc, a.startBusy));
      FreeIsClear(cfg, s, r.id, Elements(g.devices));
    }
  }

  // The container of a suspended pod is inside the devices its record names, and the
  // resume grant covers those.
  lemma ResumedContainerIsClear(cfg: Config, s: State, r: Record, a: Answers, g: Grant)
    requires NodeOk(cfg, s) && Get(s.store, r.id) == Some(r) && r.status.Suspended? && r.kind.Pod?
    requires g == ResumeGrant(cfg, s, r, a) && g.Granted? && PodResumes(s.docker, r, a)
    ensures Resumable(s.docker, r)
  {
    if r.container.Some? {
      assert IdOk(s, r.id);
      var c := r.container.value;
      assert ContainerOk(s, c) && s.docker.containers[c].devices <= Devices(r);
      assert Matches(s, r.id);
      SoundIsPinned(cfg, s, r.id);
      if r.gpuDevices != [] {
        SpecificGrants(cfg.totalGpus, s.alloc, r.id, r.gpuDevices);
        FreeIsClear(cfg, s, r.id, Devices(r));
      }
    }
  }
}
