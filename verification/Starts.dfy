/** How a start ends, case by case: which devices, how much memory, which container,
    and what is told. */
module Starts {
  import opened Common
  import opened GpuAllocation
  import opened Repository
  import opened NodeModel

  // ------------------------------------------------------------------- how many GPUs

  // A pod of a template without GPU asks for none, everything else for its count.
  function Asked(kind: Kind, w: Workload): nat {
    match kind
    case Pod => if w.noGpuTemplate then 0 else w.gpuCount
    case _ => w.gpuCount
  }

  // The devices of the node that nobody holds and nothing else is using.
  function Usable(cfg: Config, s: State, busy: set<int>): set<int> {
    set x | x in Range(0, cfg.totalGpus) && x !in busy && forall d | d in s.alloc :: x !in s.alloc[d]
  }

  predicate Enough(cfg: Config, s: State, n: nat, busy: set<int>) {
    n == 0 || |Usable(cfg, s, busy)| >= n
  }

  // The n smallest usable devices become d's entry; for none nothing changes.
  ghost predicate Takes(cfg: Config, s: State, busy: set<int>, d: string, n: nat, devices: seq<int>,
                        after: Allocations)
  {
    && |devices| == n && Smallest(Usable(cfg, s, busy), n, devices)
    && after == if n == 0 then s.alloc else s.alloc[d := Elements(devices)]
  }

  lemma UsableIsFree(cfg: Config, s: State, busy: set<int>)
    ensures Usable(cfg, s, busy) == Free(cfg.totalGpus, s.alloc) - Foreign(s.alloc, busy)
  {
    forall x ensures x in Usable(cfg, s, busy) <==> x in Free(cfg.totalGpus, s.alloc) - Foreign(s.alloc, busy) {
      if x in Used(s.alloc) {
        var d :| d in s.alloc && x in s.alloc[d];
      }
    }
  }

  lemma GrantFate(cfg: Config, s: State, r: Record, w: Workload, a: Answers)
    ensures var g, n := StartGrant(cfg, s, r, w, a), Asked(r.kind, w);
            && (g.Granted? <==> Enough(cfg, s, n, a.startBusy))
            && (g.Granted? ==> Takes(cfg, s, a.startBusy, r.id, n, g.devices, g.after))
  {
    UsableIsFree(cfg, s, a.startBusy);
    if Asked(r.kind, w) > 0 {
      AllocateGrants(cfg.totalGpus, s.alloc, r.id, Asked(r.kind, w), Foreign(s.alloc, a.startBusy));
    }
  }

  // ---------------------------------------------------------------------- memory

  // q is the share of g of h GPUs in M GB of memory, rounded down, but at least 1.
  predicate IsShare(M: nat, g: nat, h: nat, q: nat) {
    q >= 1 && M * g < (q + 1) * h && (q == 1 || q * h <= M * g)
  }

  lemma ProductsGrow(a: nat, b: nat, h: nat)
    requires a <= b
    ensures a * h <= b * h
  {}

  lemma NoSmallerShare(M: nat, g: nat, h: nat, p: nat, q: nat)
    requires h >= 1 && IsShare(M, g, h, p) && IsShare(M, g, h, q)
    ensures p >= q
  {
    ProductsGrow(p + 1, if p < q then q else p + 1, h);
  }

  lemma SharesAreUnique(M: nat, g: nat, h: nat, p: nat, q: nat)
    requires h >= 1 && IsShare(M, g, h, p) && IsShare(M, g, h, q)
    ensures p == q
  {
    NoSmallerShare(M, g, h, p, q);
    NoSmallerShare(M, g, h, q, p);
  }

  function AtLeastOne(n: nat): nat {
    if n == 0 then 1 else n
  }

  // A pod on n GPUs gets its share of the host, or what it asks for when that is less.
  ghost predicate MemoryIs(cfg: Config, n: nat, requested: nat, memory: nat) {
    exists q: nat :: IsShare(cfg.memoryGb, AtLeastOne(n), AtLeastOne(cfg.totalGpus), q)
                && memory == if requested == 0 || requested > q then q else requested
  }

  lemma MemoryIsExact(cfg: Config, n: nat, requested: nat)
    ensures MemoryIs(cfg, n, requested, MemoryGrant(cfg, n, requested))
  {
    var x, h := cfg.memoryGb * AtLeastOne(n), AtLeastOne(cfg.totalGpus);
    assert x == h * (x / h) + x % h;
    var q := if x / h >= 1 then x / h else 1;
    assert x < (x / h + 1) * h && (x / h) * h <= x;
    if x / h < 1 {
      assert x / h == 0 && x < h <= 2 * h;
    }
    assert IsShare(cfg.memoryGb, AtLeastOne(n), h, q);
  }

  // ------------------------------------------------------------------- the container

  // The containers after `docker rm -f` and `docker run`: those of the kind whose ids
  // agree in the first twelve characters are gone, and a new one runs on the devices.
  ghost predicate RunsAnew(dk: Docker, dk': Docker, d: string, kind: Kind, devices: set<int>) {
    && dk'.nextId == dk.nextId + 1
    && dk'.containers.Keys == NotNamed(dk, d, kind) + {dk.nextId}
    && dk'.containers[dk.nextId] == Container(d, kind, devices, true)
    && forall c | c in NotNamed(dk, d, kind) && c != dk.nextId :: dk'.containers[c] == dk.containers[c]
  }

  function First12(d: string): string {
    if |d| > 12 then d[..12] else d
  }

  function NotNamed(dk: Docker, d: string, kind: Kind): set<nat> {
    set c | c in dk.containers
            && (dk.containers[c].kind != kind || First12(dk.containers[c].owner) != First12(d))
  }

  // Those of the kind and name are gone, and nothing else has changed.
  ghost predicate Cleared(dk: Docker, dk': Docker, d: string, kind: Kind) {
    && dk'.nextId == dk.nextId && dk'.containers.Keys == NotNamed(dk, d, kind)
    && forall c | c in NotNamed(dk, d, kind) :: dk'.containers[c] == dk.containers[c]
  }

  lemma BackendRuns(cfg: Config, s: State, r: Record)
    requires !r.kind.Vm?
    requires r.gpuDevices == [] ==> r.kind.Pod? && r.gpuFraction == 0
    ensures var s' := StartBackend(cfg, s, r, true);
            && RunsAnew(s.docker, s'.docker, r.id, r.kind, Elements(r.gpuDevices))
            && Get(s'.store, r.id) == Some(r.(status := Ready, container := Some(s.docker.nextId)))
            && s'.alloc == s.alloc && s'.log == s.log + [Report(r.id, DReady)]
  {
    var dk := RemoveNamed(s.docker, r.id, r.kind);
    assert dk.containers.Keys == NotNamed(s.docker, r.id, r.kind);
    assert r.gpuDevices == [] ==> Elements(r.gpuDevices) == {};
  }

  // ------------------------------------------------------------------ how it ends

  // What a handler makes of `r` once it holds the devices: they are named and counted,
  // and a pod has its memory.
  ghost predicate Outfitted(cfg: Config, s: State, r: Record, w: Workload, busy: set<int>, e: Record,
                            after: Allocations)
  {
    var n := Asked(r.kind, w);
    && Takes(cfg, s, busy, r.id, n, e.gpuDevices, after)
    && (match r.kind
        case Inference => e == r.(gpuDevices := e.gpuDevices, gpuCount := Some(n), gpuFraction := n)
        case Pod =>
          && e == r.(gpuDevices := e.gpuDevices, gpuCount := Some(n), gpuFraction := n, memoryGb := e.memoryGb)
          && MemoryIs(cfg, n, w.requestedMemoryGb, e.memoryGb)
        case _ => e == r.(gpuDevices := e.gpuDevices, gpuCount := Some(n)))
  }

  ghost predicate EndsFailed(s: State, s': State, r: Record) {
    && Get(s'.store, r.id) == Some(r.(status := Failed))
    && s'.alloc == s.alloc - {r.id} && s'.log == s.log + [Report(r.id, DFailed)]
  }

  ghost predicate EndsReady(cfg: Config, s: State, s': State, r: Record, w: Workload, busy: set<int>) {
    exists e: Record ::
      && Outfitted(cfg, s, r, w, busy, e, s'.alloc)
      && s'.log == s.log + [Report(r.id, DReady)]
      && (if r.kind.Vm? then Get(s'.store, r.id) == Some(e.(status := Ready, vm := true)) && s'.docker == s.docker
          else Get(s'.store, r.id) == Some(e.(status := Ready, container := Some(s.docker.nextId)))
               && RunsAnew(s.docker, s'.docker, r.id, r.kind, Elements(e.gpuDevices)))
  }

  // The backend refuses: what stood in its way is gone already.
  ghost predicate EndsRefused(cfg: Config, s: State, s': State, r: Record, w: Workload, busy: set<int>) {
    && (exists e: Record, after :: Outfitted(cfg, s, r, w, busy, e, after) && EndsFailed(s, s', e))
    && (if r.kind.Vm? then s'.docker == s.docker else Cleared(s.docker, s'.docker, r.id, r.kind))
  }

  // Weights or a volume cannot be had. Only a replica's record then names the devices.
  ghost predicate EndsUnprepared(cfg: Config, s: State, s': State, r: Record, w: Workload, busy: set<int>) {
    && s'.docker == s.docker
    && if r.kind.Inference? then
         exists e: Record, after :: Outfitted(cfg, s, r, w, busy, e, after) && EndsFailed(s, s', e)
       else EndsFailed(s, s', r)
  }

  // Enough devices are held, and nothing else has happened.
  ghost predicate BreaksOff(cfg: Config, s: State, s': State, d: string, n: nat, busy: set<int>) {
    exists devices :: Takes(cfg, s, busy, d, n, devices, s'.alloc) && s' == s.(alloc := s'.alloc)
  }

  lemma EquippedIsOutfitted(cfg: Config, s: State, r: Record, w: Workload, busy: set<int>, devices: seq<int>,
                            after: Allocations)
    requires Takes(cfg, s, busy, r.id, Asked(r.kind, w), devices, after)
    ensures Outfitted(cfg, s, r, w, busy, Equipped(cfg, r, w, Asked(r.kind, w), devices), after)
  {
    MemoryIsExact(cfg, Asked(r.kind, w), w.requestedMemoryGb);
  }

  lemma LaunchIsReady(cfg: Config, s: State, r: Record, w: Workload, devices: seq<int>, after: Allocations, a: Answers)
    requires !r.kind.Unsupported? && a.backendStarts && (r.kind.Vm? || a.preparation.Prepared?)
    requires Takes(cfg, s, a.startBusy, r.id, Asked(r.kind, w), devices, after)
    ensures var o := Launch(cfg, s.(alloc := after), r, w, Asked(r.kind, w), devices, a);
            o.Done? && EndsReady(cfg, s, o.state, r, w, a.startBusy)
  {
    var n := Asked(r.kind, w);
    var e := Equipped(cfg, r, w, n, devices);
    var starting := e.(status := Starting);
    EquippedIsOutfitted(cfg, s, r, w, a.startBusy, devices, after);
    if !r.kind.Vm? {
      BackendRuns(cfg, Saved(s.(alloc := after), starting), starting);
    }
    assert Outfitted(cfg, s, r, w, a.startBusy, e, after);
  }

  lemma BackendRefuses(cfg: Config, s: State, r: Record)
    ensures var s' := StartBackend(cfg, s, r, false);
            && EndsFailed(s, s', r)
            && (if r.kind.Vm? then s'.docker == s.docker else Cleared(s.docker, s'.docker, r.id, r.kind))
  {}

  lemma LaunchIsRefused(cfg: Config, s: State, r: Record, w: Workload, devices: seq<int>, after: Allocations,
                        a: Answers)
    requires !a.backendStarts && (r.kind.Vm? || a.preparation.Prepared?)
    requires Takes(cfg, s, a.startBusy, r.id, Asked(r.kind, w), devices, after)
    ensures var o := Launch(cfg, s.(alloc := after), r, w, Asked(r.kind, w), devices, a);
            o.Done? && EndsRefused(cfg, s, o.state, r, w, a.startBusy)
  {
    var e := Equipped(cfg, r, w, Asked(r.kind, w), devices);
    var starting := e.(status := Starting);
    EquippedIsOutfitted(cfg, s, r, w, a.startBusy, devices, after);
    BackendRefuses(cfg, Saved(s.(alloc := after), starting), starting);
    assert after - {r.id} == s.alloc - {r.id};
    assert Outfitted(cfg, s, r, w, a.startBusy, e, after);
    assert EndsFailed(s, Launch(cfg, s.(alloc := after), r, w, Asked(r.kind, w), devices, a).state, e);
  }

  lemma LaunchIsUnprepared(cfg: Config, s: State, r: Record, w: Workload, devices: seq<int>, after: Allocations,
                           a: Answers)
    requires !r.kind.Vm? && a.preparation.DeclaredError?
    requires Takes(cfg, s, a.startBusy, r.id, Asked(r.kind, w), devices, after)
    ensures var o := Launch(cfg, s.(alloc := after), r, w, Asked(r.kind, w), devices, a);
            o.Done? && EndsUnprepared(cfg, s, o.state, r, w, a.startBusy)
  {
    var e := Equipped(cfg, r, w, Asked(r.kind, w), devices);
    EquippedIsOutfitted(cfg, s, r, w, a.startBusy, devices, after);
    assert after - {r.id} == s.alloc - {r.id};
    assert Outfitted(cfg, s, r, w, a.startBusy, e, after);
  }

  lemma LaunchBreaksOff(cfg: Config, s: State, r: Record, w: Workload, devices: seq<int>, after: Allocations,
                        a: Answers)
    requires !r.kind.Vm? && a.preparation.UnexpectedError?
    requires Takes(cfg, s, a.startBusy, r.id, Asked(r.kind, w), devices, after)
    ensures var o := Launch(cfg, s.(alloc := after), r, w, Asked(r.kind, w), devices, a);
            o.Crashed? && BreaksOff(cfg, s, o.state, r.id, Asked(r.kind, w), a.startBusy)
  {}

  lemma RefusedStart(cfg: Config, s: State, r: Record, w: Workload, a: Answers)
    requires (r.kind.Pod? && !a.sshReady) || !Enough(cfg, s, Asked(r.kind, w), a.startBusy)
    ensures var o := StartRuntime(cfg, s, r, w, a);
            o.Done? && EndsFailed(s, o.state, r) && o.state.docker == s.docker
  {
    GrantFate(cfg, s, r, w, a);
    assert StartRuntime(cfg, s, r, w, a) == Done(FailRuntime(s, r));
  }

  lemma GrantedStart(cfg: Config, s: State, r: Record, w: Workload, a: Answers)
    returns (devices: seq<int>, after: Allocations)
    requires !(r.kind.Pod? && !a.sshReady) && Enough(cfg, s, Asked(r.kind, w), a.startBusy)
    ensures Takes(cfg, s, a.startBusy, r.id, Asked(r.kind, w), devices, after)
    ensures StartRuntime(cfg, s, r, w, a) == Launch(cfg, s.(alloc := after), r, w, Asked(r.kind, w), devices, a)
  {
    GrantFate(cfg, s, r, w, a);
    var g := StartGrant(cfg, s, r, w, a);
    devices, after := g.devices, g.after;
    assert Asked(r.kind, w) == GpusWanted(r.kind, w);
  }

  // A start ends ready exactly when the node has what it needs and everything works;
  // otherwise it ends failed and gives everything back, except that an error nobody
  // expects while it is prepared leaves it as it is, holding its devices.
  ghost predicate StartEnds(cfg: Config, s: State, o: Outcome, r: Record, w: Workload, a: Answers) {
    var n := Asked(r.kind, w);
    if (r.kind.Pod? && !a.sshReady) || !Enough(cfg, s, n, a.startBusy) then
      o.Done? && EndsFailed(s, o.state, r) && o.state.docker == s.docker
    else if !r.kind.Vm? && a.preparation.UnexpectedError? then
      o.Crashed? && BreaksOff(cfg, s, o.state, r.id, n, a.startBusy)
    else if !r.kind.Vm? && a.preparation.DeclaredError? then
      o.Done? && EndsUnprepared(cfg, s, o.state, r, w, a.startBusy)
    else if a.backendStarts then o.Done? && EndsReady(cfg, s, o.state, r, w, a.startBusy)
    else o.Done? && EndsRefused(cfg, s, o.state, r, w, a.startBusy)
  }

  lemma LaunchFate(cfg: Config, s: State, r: Record, w: Workload, devices: seq<int>, after: Allocations, a: Answers,
                   o: Outcome)
    requires !r.kind.Unsupported? && !(r.kind.Pod? && !a.sshReady) && Enough(cfg, s, Asked(r.kind, w), a.startBusy)
    requires Takes(cfg, s, a.startBusy, r.id, Asked(r.kind, w), devices, after)
    requires o == Launch(cfg, s.(alloc := after), r, w, Asked(r.kind, w), devices, a)
    ensures StartEnds(cfg, s, o, r, w, a)
  {
    if !r.kind.Vm? && a.preparation.UnexpectedError? {
      LaunchBreaksOff(cfg, s, r, w, devices, after, a);
    } else if !r.kind.Vm? && a.preparation.DeclaredError? {
      LaunchIsUnprepared(cfg, s, r, w, devices, after, a);
    } else if a.backendStarts {
      LaunchIsReady(cfg, s, r, w, devices, after, a);
    } else {
      LaunchIsRefused(cfg, s, r, w, devices, after, a);
    }
  }

  lemma StartFate(cfg: Config, s: State, r: Record, w: Workload, a: Answers)
    requires !r.kind.Unsupported?
    ensures StartEnds(cfg, s, StartRuntime(cfg, s, r, w, a), r, w, a)
  {
    var o := StartRuntime(cfg, s, r, w, a);
    if (r.kind.Pod? && !a.sshReady) || !Enough(cfg, s, Asked(r.kind, w), a.startBusy) {
      RefusedStart(cfg, s, r, w, a);
    } else {
      var devices, after := GrantedStart(cfg, s, r, w, a);
      LaunchFate(cfg, s, r, w, devices, after, a, o);
    }
  }

  // --------------------------------------------------------------------- new leases

  // The record a new lease begins with, written down and put last.
  function Begun(lease: Lease, kind: Kind): Record {
    Record(lease.deployment, lease.workload, kind, Accepted, [], None, 0, 0, None, false)
  }

  function Noted(s: State, r: Record): State {
    var file := Store(s.store.runtimes[r.id := r], s.store.order + [r.id]);
    s.(store := file, saves := s.saves + [file])
  }

  function Told(s: State, d: string, state: DeploymentState): State {
    s.(log := s.log + [Report(d, state)])
  }

  // Where a lease of an unknown deployment leads: a failure is reported when there is
  // no workload to be had, and a start that breaks off is reported failed too.
  ghost predicate LeaseEnds(cfg: Config, s: State, t: State, lease: Lease, a: Answers) {
    match a.workload
    case Missing => t == Told(s, lease.deployment, DFailed)
    case LookupFailed => t == Told(s, lease.deployment, DFailed)
    case Found(w) =>
      var r := Begun(lease, w.kind);
      if w.kind.Unsupported? then EndsFailed(s, t, r) && t.docker == s.docker
      else exists o: Outcome :: StartEnds(cfg, Noted(s, r), o, r, w, a)
                                && t == if o.Crashed? then Told(o.state, r.id, DFailed) else o.state
  }

  lemma NewLeaseFate(cfg: Config, s: State, lease: Lease, a: Answers)
    requires Get(s.store, lease.deployment).None? && !lease.suspended
    ensures var o := HandleLease(cfg, s, lease, a); o.Done? && LeaseEnds(cfg, s, o.state, lease, a)
  {
    if a.workload.Found? && !a.workload.workload.kind.Unsupported? {
      var w := a.workload.workload;
      var r := Begun(lease, w.kind);
      assert Noted(s, r) == Saved(s, r) && r == FreshRecord(lease, w);
      StartFate(cfg, Noted(s, r), r, w, a);
      var o := StartRuntime(cfg, Noted(s, r), r, w, a);
      assert Dispatch(cfg, s, lease, a) == o;
    }
  }

  // A pod of a template without GPU never waits for one: with a working backend it
  // starts on a full node, and leaves the allocator as it is.
  lemma CpuPodNeedsNoGpu(cfg: Config, s: State, lease: Lease, a: Answers, w: Workload)
    requires Get(s.store, lease.deployment).None? && !lease.suspended
    requires a.workload == Found(w) && w.kind.Pod? && w.noGpuTemplate
    requires a.sshReady && a.preparation.Prepared? && a.backendStarts
    ensures var t := HandleLease(cfg, s, lease, a).state;
            && t.alloc == s.alloc && Get(t.store, lease.deployment).Some?
            && var r := Get(t.store, lease.deployment).value;
            && r.status.Ready? && r.gpuDevices == [] && r.gpuCount == Some(0)
  {
    NewLeaseFate(cfg, s, lease, a);
    var r, t := Begun(lease, w.kind), HandleLease(cfg, s, lease, a).state;
    var o: Outcome :| StartEnds(cfg, Noted(s, r), o, r, w, a)
                      && t == if o.Crashed? then Told(o.state, r.id, DFailed) else o.state;
  }

  // ---------------------------------------------------------------------- retries

  // The node without `r`: devices and container given up, two files written.
  function Forgotten(s: State, r: Record): State {
    var ended := Store(s.store.runtimes[r.id := r.(status := Terminated)], s.store.order);
    var file := Store(s.store.runtimes - {r.id}, Without(s.store.order, r.id));
    var gone := if (r.kind.Inference? || r.kind.Pod?) && r.container.Some? then {r.container.value} else {};
    State(file, s.alloc - {r.id}, s.docker.(containers := s.docker.containers - gone), s.log,
          s.saves + [ended, file])
  }

  // A stuck record is retried as if its deployment were new; nobody is told.
  lemma RetryFate(cfg: Config, s: State, lease: Lease, a: Answers, r: Record)
    requires WellFormed(s.store) && Get(s.store, lease.deployment) == Some(r) && !lease.suspended
    requires r.status.Accepted? || r.status.Starting?
    ensures HandleLease(cfg, s, lease, a) == HandleLease(cfg, Forgotten(s, r), lease, a)
    ensures LeaseEnds(cfg, Forgotten(s, r), HandleLease(cfg, s, lease, a).state, lease, a)
  {
    assert r.id == lease.deployment;
    var s1 := TerminateRuntime(s, r, false);
    assert s1.store.runtimes - {r.id} == s.store.runtimes - {r.id};
    assert s.docker.containers - {} == s.docker.containers;
    assert Removed(s1, r.id) == Forgotten(s, r);
    NewLeaseFate(cfg, Forgotten(s, r), lease, a);
  }

  // Everything else is left as it is by a lease that is not marked suspended.
  lemma SettledFate(cfg: Config, s: State, lease: Lease, a: Answers, r: Record)
    requires Get(s.store, lease.deployment) == Some(r) && !lease.suspended
    requires r.status.Ready? || r.status.Failed? || r.status.Terminated? || r.status.Preparing?
    ensures HandleLease(cfg, s, lease, a) == Done(s)
  {}

  // ---------------------------------------------------------------------- resumes

  // The recorded count; a record without one, or with 0, counts for one GPU.
  function CountOf(r: Record): nat {
    match r.gpuCount
    case Some(k) => if k > 0 then k else 1
    case None => if r.gpuFraction > 0 then r.gpuFraction else 1
  }

  // Its own devices are there: it holds them, or they are on this node and nobody does.
  ghost predicate OwnDevicesFree(cfg: Config, s: State, r: Record) {
    forall x | x in r.gpuDevices ::
      || (r.id in s.alloc && x in s.alloc[r.id])
      || (0 <= x < cfg.totalGpus && forall d | d in s.alloc :: x !in s.alloc[d])
  }

  ghost predicate CanResume(cfg: Config, s: State, r: Record, busy: set<int>) {
    if r.kind.Pod? && r.gpuDevices != [] then OwnDevicesFree(cfg, s, r) else Enough(cfg, s, CountOf(r), busy)
  }

  // The devices a resume gets: the old ones of a pod, or the smallest usable.
  ghost predicate Regains(cfg: Config, s: State, r: Record, busy: set<int>, devices: seq<int>) {
    if r.kind.Pod? && r.gpuDevices != [] then
      StrictlySorted(devices) && Elements(devices) == Elements(r.gpuDevices)
    else Smallest(Usable(cfg, s, busy), CountOf(r), devices)
  }

  lemma ResumeGrantFate(cfg: Config, s: State, r: Record, a: Answers)
    ensures var g := ResumeGrant(cfg, s, r, a);
            && (g.Granted? <==> CanResume(cfg, s, r, a.resumeBusy))
            && (g.Granted? ==> Regains(cfg, s, r, a.resumeBusy, g.devices)
                               && g.after == s.alloc[r.id := Elements(g.devices)])
  {
    var g := ResumeGrant(cfg, s, r, a);
    if r.kind.Pod? && r.gpuDevices != [] {
      AllocateSpecificIsExact(cfg.totalGpus, s.alloc, r.id, r.gpuDevices, g);
      AvailableIsOwn(cfg, s, r);
    } else {
      UsableIsFree(cfg, s, a.resumeBusy);
      AllocateGrants(cfg.totalGpus, s.alloc, r.id, CountOf(r), Foreign(s.alloc, a.resumeBusy));
    }
  }

  lemma AvailableIsOwn(cfg: Config, s: State, r: Record)
    ensures Available(cfg.totalGpus, s.alloc, r.id, r.gpuDevices) <==> OwnDevicesFree(cfg, s, r)
  {}

  // docker start works on a container that is still there; a pod that has none needs none.
  predicate StartsAgain(dk: Docker, r: Record, a: Answers) {
    a.containerResumes && match r.container
                          case None => true
                          case Some(c) => c in dk.containers
  }

  // The pod's own container, and nothing else, runs again.
  ghost predicate RunsAgain(dk: Docker, dk': Docker, r: Record) {
    && dk'.nextId == dk.nextId && dk'.containers.Keys == dk.containers.Keys
    && forall c | c in dk.containers ::
         dk'.containers[c] == if r.container == Some(c) then dk.containers[c].(running := true) else dk.containers[c]
  }

  ghost predicate BackInService(s: State, t: State, r: Record, devices: seq<int>) {
    && Get(t.store, r.id) == Some(r.(status := Ready, gpuDevices := devices, gpuCount := Some(CountOf(r))))
    && t.alloc == s.alloc[r.id := Elements(devices)] && RunsAgain(s.docker, t.docker, r)
    && t.log == s.log + [Report(r.id, DReady)]
  }

  ghost predicate StillSuspended(s: State, t: State, r: Record, devices: seq<int>) {
    && Get(t.store, r.id) == Some(r.(status := Suspended, gpuDevices := devices, gpuCount := Some(CountOf(r))))
    && t.alloc == s.alloc - {r.id} && t.docker == s.docker && t.log == s.log
  }

  // A pod resumes with its devices, count and container, or stays suspended; only its
  // record then says which devices it was granted for the attempt.
  ghost predicate PodResumeEnds(cfg: Config, s: State, o: Outcome, r: Record, a: Answers) {
    if !CanResume(cfg, s, r, a.resumeBusy) then o == Done(s)
    else
      exists devices :: o.Done? && Regains(cfg, s, r, a.resumeBusy, devices)
                        && if StartsAgain(s.docker, r, a) then BackInService(s, o.state, r, devices)
                           else StillSuspended(s, o.state, r, devices)
  }

  lemma PodIsBack(s: State, after: Allocations, r: Record, devices: seq<int>, a: Answers)
    requires StartsAgain(s.docker, r, a) && after == s.alloc[r.id := Elements(devices)]
    ensures BackInService(s, ResumePod(s.(alloc := after), r, devices, a), r, devices)
  {}

  lemma PodIsStillSuspended(s: State, after: Allocations, r: Record, devices: seq<int>, a: Answers)
    requires !StartsAgain(s.docker, r, a) && after == s.alloc[r.id := Elements(devices)]
    ensures StillSuspended(s, ResumePod(s.(alloc := after), r, devices, a), r, devices)
  {
    assert after - {r.id} == s.alloc - {r.id};
  }

  lemma GrantedPodResume(cfg: Config, s: State, r: Record, a: Answers, g: Grant)
    requires r.kind.Pod? && g.Granted?
    requires CanResume(cfg, s, r, a.resumeBusy) && Regains(cfg, s, r, a.resumeBusy, g.devices)
    requires g.after == s.alloc[r.id := Elements(g.devices)]
    ensures PodResumeEnds(cfg, s, Done(ResumePod(s.(alloc := g.after), r, g.devices, a)), r, a)
  {
    if StartsAgain(s.docker, r, a) {
      PodIsBack(s, g.after, r, g.devices, a);
    } else {
      PodIsStillSuspended(s, g.after, r, g.devices, a);
    }
  }

  lemma PodResumeFate(cfg: Config, s: State, lease: Lease, a: Answers, r: Record)
    requires WellFormed(s.store) && Get(s.store, lease.deployment) == Some(r) && !lease.suspended
    requires r.status.Suspended? && r.kind.Pod?
    ensures PodResumeEnds(cfg, s, HandleLease(cfg, s, lease, a), r, a)
  {
    assert HandleLease(cfg, s, lease, a) == ResumeRuntime(cfg, s, r, a);
    ResumeGrantFate(cfg, s, r, a);
    var g := ResumeGrant(cfg, s, r, a);
    if g.Granted? {
      GrantedPodResume(cfg, s, r, a, g);
    }
  }

  // A replica or VM gives the devices of the attempt back and starts afresh on what its
  // workload asks for, if there is a workload to be had.
  ghost predicate FreshResumeEnds(cfg: Config, s: State, o: Outcome, r: Record, a: Answers) {
    if !CanResume(cfg, s, r, a.resumeBusy) then o == Done(s)
    else
      var back := s.(alloc := s.alloc - {r.id});
      match a.workload
      case Missing => o == Done(back)
      case LookupFailed => o == Done(back)
      case Found(w) =>
        var r1 := r.(status := Accepted);
        var file := Store(s.store.runtimes[r.id := r1], s.store.order);
        StartEnds(cfg, back.(store := file, saves := s.saves + [file]), o, r1, w, a)
  }

  lemma FreshResumeFate(cfg: Config, s: State, lease: Lease, a: Answers, r: Record)
    requires WellFormed(s.store) && Get(s.store, lease.deployment) == Some(r) && !lease.suspended
    requires r.status.Suspended? && (r.kind.Inference? || r.kind.Vm?)
    ensures FreshResumeEnds(cfg, s, HandleLease(cfg, s, lease, a), r, a)
  {
    assert r.id == lease.deployment;
    assert HandleLease(cfg, s, lease, a) == ResumeRuntime(cfg, s, r, a);
    ResumeGrantFate(cfg, s, r, a);
    var g := ResumeGrant(cfg, s, r, a);
    if g.Granted? {
      var back := s.(alloc := s.alloc - {r.id});
      assert FreedGpus(s.(alloc := g.after), r.id) == back;
      if a.workload.Found? {
        var r1 := r.(status := Accepted);
        StartFate(cfg, Saved(back, r1), r1, a.workload.workload, a);
      }
    }
  }
}
