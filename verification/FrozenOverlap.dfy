/** An overlap that outlives the pass meant to heal it: how a crash in the middle of a
    resume makes one, for any node it can happen on, and a run of a fresh node that
    gets there. */
module FrozenOverlap {
  import opened Common
  import opened GpuAllocation
  import opened Repository
  import opened NodeModel
  import opened Loops
  import opened Exclusivity
  import opened Steps
  import opened Runs
  import opened LostRetries
  import opened Stabilisation
  import opened Healing

  // ------------------------------------------------------- a crash in a resume

  // The first own lease of the pass resumes a replica.
  ghost predicate ResumesFirst(cfg: Config, s: State, inp: PassInput, r: Record) {
    var mine := Mine(cfg, Leases(inp));
    && mine != [] && mine[0].deployment == r.id && !mine[0].suspended
    && Get(s.store, r.id) == Some(r) && r.status.Suspended? && r.kind.Inference?
    && inp.answers(0).workload.Found? && ResumeGrant(cfg, s, r, inp.answers(0)).Granted?
  }

  lemma FirstFileOfResume(cfg: Config, s: State, r: Record, a: Answers)
    requires r.kind.Inference? && a.workload.Found? && ResumeGrant(cfg, s, r, a).Granted?
    ensures s.saves + [Put(s.store, r.(status := Accepted))] <= ResumeRuntime(cfg, s, r, a).state.saves
  {
    var g := ResumeGrant(cfg, s, r, a);
    var r1 := r.(status := Accepted);
    var s1 := Saved(FreedGpus(s.(alloc := g.after), r.id), r1);
    StartAppends(cfg, s1, r1, a.workload.workload, a);
  }

  lemma FirstLeaseAppends(cfg: Config, s: State, inp: PassInput)
    requires Mine(cfg, Leases(inp)) != []
    ensures HandleLease(cfg, s, Mine(cfg, Leases(inp))[0], inp.answers(0)).state.saves <= Reconcile(cfg, s, inp).saves
  {
    var mine := Mine(cfg, Leases(inp));
    var o := HandleLease(cfg, s, mine[0], inp.answers(0));
    if o.Done? {
      RestOfPassAppends(cfg, s, o.state, inp);
    }
  }

  function CrashedResume(s: State, inp: PassInput, world: Docker): Event {
    CrashInReconcile(inp, |s.saves| + 1, world, 0)
  }

  lemma ResumeIsWrittenFirst(cfg: Config, s: State, inp: PassInput, r: Record)
    requires WellFormed(s.store) && ResumesFirst(cfg, s, inp, r)
    ensures |Reconcile(cfg, s, inp).saves| > |s.saves|
    ensures Reconcile(cfg, s, inp).saves[|s.saves|] == Put(s.store, r.(status := Accepted))
  {
    var a, saves := inp.answers(0), Reconcile(cfg, s, inp).saves;
    var written := ResumeRuntime(cfg, s, r, a).state.saves;
    FirstFileOfResume(cfg, s, r, a);
    FirstLeaseAppends(cfg, s, inp);
    assert HandleLease(cfg, s, Mine(cfg, Leases(inp))[0], a) == ResumeRuntime(cfg, s, r, a);
    assert saves[|s.saves|] == written[|s.saves|];
  }

  lemma CrashReloads(cfg: Config, s: State, inp: PassInput, k: nat, world: Docker)
    ensures var c := Step(cfg, s, CrashInReconcile(inp, k, world, 0)); c.alloc == Rehydrated(c.store)
  {
    PassOnlyAppends(cfg, s, inp);
  }

  // Killed right after its first write, the resume leaves the record accepted, with
  // the devices it gave back when it was suspended; the reload takes them again.
  lemma CrashRevivesOldDevices(cfg: Config, s: State, inp: PassInput, world: Docker, r: Record)
    requires Exclusive(cfg, s) && ResumesFirst(cfg, s, inp, r)
    ensures var c := Step(cfg, s, CrashedResume(s, inp, world));
            && Exclusive(cfg, c) && c.store == Put(s.store, r.(status := Accepted))
            && Entry(c.alloc, r.id) == Devices(r)
  {
    var k := |s.saves| + 1;
    ResumeIsWrittenFirst(cfg, s, inp, r);
    CrashLeavesFile(cfg, s, inp, k, world, 0);
    CrashReloads(cfg, s, inp, k, world);
    StepKeepsExclusive(cfg, s, CrashInReconcile(inp, k, world, 0));
    RehydratedIsRecorded(Put(s.store, r.(status := Accepted)), r.id);
  }

  // If somebody is ready on one of those devices, and the replica's lease is marked
  // suspended again while the other's is active, the next pass leaves the overlap.
  lemma OverlapOutlivesThePass(cfg: Config, s: State, inp: PassInput, world: Docker, r: Record, e: string,
                               next: PassInput)
    requires Exclusive(cfg, s) && ResumesFirst(cfg, s, inp, r)
    requires Get(s.store, e).Some? && s.store.runtimes[e].status.Ready? && e != r.id
    requires Devices(r) * Devices(s.store.runtimes[e]) != {}
    requires LeasedOnlySuspended(Mine(cfg, Leases(next)), r.id) && HasActiveLease(cfg, next, e)
    ensures var c := Step(cfg, s, CrashedResume(s, inp, world));
            !Sound(cfg.totalGpus, Reconcile(cfg, c, next).alloc)
  {
    var c := Step(cfg, s, CrashedResume(s, inp, world));
    CrashRevivesOldDevices(cfg, s, inp, world, r);
    var t := Reconcile(cfg, c, next);
    SuspendedLeaseFreezesAccepted(cfg, c, next, r.id);
    SettledStaysUntouched(cfg, c, next, e);
    ReconcileKeepsExclusive(cfg, c, next);
    assert Matches(t, e);
    assert t.alloc[r.id] * t.alloc[e] != {};
  }

  // -------------------------------------------------------------- a run that does it

  const NODE := Config("node", 2, 1)
  const WORKS := Answers(Found(Workload(Inference, 1, false, 0)), {}, {}, true, Prepared, true, true)

  function Ask(d: string, suspended: bool): Lease {
    Lease(d, "w", "", suspended)
  }

  function Asking(leases: seq<Lease>): PassInput {
    PassInput(Some(leases), (i: nat) => WORKS, d => NotFound)
  }

  // `d` runs on device 0 and nobody else is known.
  ghost predicate RunsOnZero(r: Record) {
    r.kind.Inference? && r.gpuDevices == [0] && r.gpuCount == Some(1)
  }

  lemma FirstDevice(m: Allocations, d: string)
    requires Used(m) == {}
    ensures TryAllocate(2, m, d, 1, Foreign(m, {})) == Granted([0], m[d := {0}])
  {
    AllocateGrants(2, m, d, 1, Foreign(m, {}));
    var usable := Free(2, m) - Foreign(m, {});
    assert usable == {0, 1};
    assert Smallest(usable, 1, [0]);
    SmallestIsUnique(usable, 1, TryAllocate(2, m, d, 1, Foreign(m, {})).devices, [0]);
    assert Elements([0]) == {0};
  }

  lemma LaunchesOnZero(s: State, r: Record)
    requires r.kind.Inference?
    ensures var o := Launch(NODE, s, r, WORKS.workload.workload, 1, [0], WORKS);
            && o.Done? && Get(o.state.store, r.id).Some?
            && o.state.store.runtimes[r.id].status.Ready? && RunsOnZero(o.state.store.runtimes[r.id])
  {}

  lemma StartsOnZero(s: State, d: string)
    requires Get(s.store, d).None? && Used(s.alloc) == {}
    ensures var o := HandleLease(NODE, s, Ask(d, false), WORKS);
            && o.Done? && Get(o.state.store, d).Some?
            && o.state.store.runtimes[d].status.Ready? && RunsOnZero(o.state.store.runtimes[d])
  {
    var w := WORKS.workload.workload;
    var r := FreshRecord(Ask(d, false), w);
    var s1 := Saved(s, r);
    FirstDevice(s.alloc, d);
    assert StartGrant(NODE, s1, r, w, WORKS) == Granted([0], s1.alloc[d := {0}]);
    LaunchesOnZero(s1.(alloc := s1.alloc[d := {0}]), r);
    assert Dispatch(NODE, s, Ask(d, false), WORKS) == StartRuntime(NODE, s1, r, w, WORKS);
  }

  lemma NobodyHolds(cfg: Config, s: State, d: string)
    requires Exclusive(cfg, s)
    requires forall e | e != d :: Get(s.store, e).None?
    requires Get(s.store, d).Some? ==> Get(s.store, d).value.status.Suspended?
    ensures Used(s.alloc) == {}
  {
    forall e | e in s.alloc ensures s.alloc[e] == {} {
      assert Matches(s, e) && Entry(s.alloc, e) == s.alloc[e];
    }
  }

  // When every record is leased here the cleanup has nothing to do.
  lemma NothingToClean(cfg: Config, s: State, inp: PassInput)
    requires forall d | d in s.store.order :: d in Deployments(Mine(cfg, Leases(inp)))
    ensures Cleanup(cfg, s, inp) == s
  {
    var active, fleet := Deployments(Mine(cfg, Leases(inp))), Deployments(Leases(inp));
    var P := (x: State) => x == s;
    CleanupLoopKeeps(s, s.store.order, active, fleet, inp.deployment, 0, P);
  }

  const ALONE := Asking([Ask("a", false)])
  const SHIFTED := Asking([Ask("a", true), Ask("b", false)])
  const BACK := Asking([Ask("a", false), Ask("b", false)])

  lemma AskedOfAlone()
    ensures Mine(NODE, Leases(ALONE)) == [Ask("a", false)] && "a" in Deployments(Mine(NODE, Leases(ALONE)))
  {
    assert [Ask("a", false)][1..] == [];
    assert Ask("a", false) in Mine(NODE, Leases(ALONE));
  }

  lemma AskedOfTwo(suspended: bool)
    ensures var l, k := Ask("a", suspended), Ask("b", false);
            Mine(NODE, [l, k]) == [l, k] && Deployments([l, k]) == {"a", "b"}
  {
    var l, k := Ask("a", suspended), Ask("b", false);
    assert [l, k][1..] == [k] && [k][1..] == [];
    assert Mine(NODE, [k]) == [k];
    assert [l, k][0] == l && [l, k][1] == k;
    forall d ensures d in Deployments([l, k]) <==> d in {"a", "b"} {
      if d in Deployments([l, k]) {
        var x :| x in [l, k] && x.deployment == d;
      } else {
        assert l in [l, k] && k in [l, k];
      }
    }
  }

  // a runs on device 0.
  ghost predicate OnlyA(s: State) {
    && Exclusive(NODE, s)
    && (forall d | d != "a" :: Get(s.store, d).None?)
    && Get(s.store, "a").Some? && RunsOnZero(s.store.runtimes["a"])
  }

  lemma AfterFirst()
    ensures var s := Reconcile(NODE, EMPTY, ALONE); OnlyA(s) && s.store.runtimes["a"].status.Ready?
  {
    var l, answers := Ask("a", false), ALONE.answers;
    var o := HandleLease(NODE, EMPTY, l, WORKS);
    AskedOfAlone();
    EmptyIsOk(NODE);
    StartsOnZero(EMPTY, "a");
    HandleLeaseKeeps(NODE, EMPTY, l, WORKS);
    HandleLeaseServes(NODE, EMPTY, l, WORKS);
    assert LeaseLoop(NODE, o.state, [l], answers, 1) == Done(o.state);
    assert LeaseLoop(NODE, EMPTY, [l], answers, 0) == Done(o.state);
    forall d | d in o.state.store.order ensures d == "a" {
      assert Get(o.state.store, d).Some?;
    }
    NothingToClean(NODE, o.state, ALONE);
  }

  // a is suspended, b runs on device 0.
  ghost predicate AGaveWay(s: State) {
    && Exclusive(NODE, s)
    && (forall d | d != "a" && d != "b" :: Get(s.store, d).None?)
    && Get(s.store, "a").Some? && RunsOnZero(s.store.runtimes["a"]) && s.store.runtimes["a"].status.Suspended?
    && Get(s.store, "b").Some? && RunsOnZero(s.store.runtimes["b"]) && s.store.runtimes["b"].status.Ready?
  }

  lemma ASuspends(s: State)
    requires OnlyA(s) && s.store.runtimes["a"].status.Ready?
    ensures var o := HandleLease(NODE, s, Ask("a", true), WORKS);
            o.Done? && OnlyA(o.state) && o.state.store.runtimes["a"].status.Suspended?
  {
    HandleLeaseKeeps(NODE, s, Ask("a", true), WORKS);
    HandleLeaseServes(NODE, s, Ask("a", true), WORKS);
  }

  lemma BStarts(s: State)
    requires OnlyA(s) && s.store.runtimes["a"].status.Suspended?
    ensures var o := HandleLease(NODE, s, Ask("b", false), WORKS); o.Done? && AGaveWay(o.state)
  {
    NobodyHolds(NODE, s, "a");
    StartsOnZero(s, "b");
    HandleLeaseKeeps(NODE, s, Ask("b", false), WORKS);
    HandleLeaseServes(NODE, s, Ask("b", false), WORKS);
  }

  lemma TwoLeaseLoop(s: State, l: Lease, k: Lease, t: State, u: State, answers: nat -> Answers)
    requires HandleLease(NODE, s, l, answers(0)) == Done(t) && HandleLease(NODE, t, k, answers(1)) == Done(u)
    ensures LeaseLoop(NODE, s, [l, k], answers, 0) == Done(u)
  {
    assert LeaseLoop(NODE, u, [l, k], answers, 2) == Done(u);
    assert LeaseLoop(NODE, t, [l, k], answers, 1) == Done(u);
  }

  lemma AfterSecond(s: State)
    requires OnlyA(s) && s.store.runtimes["a"].status.Ready?
    ensures AGaveWay(Reconcile(NODE, s, SHIFTED))
  {
    var l, k := Ask("a", true), Ask("b", false);
    var t := HandleLease(NODE, s, l, WORKS).state;
    var u := HandleLease(NODE, t, k, WORKS).state;
    AskedOfTwo(true);
    ASuspends(s);
    BStarts(t);
    TwoLeaseLoop(s, l, k, t, u, SHIFTED.answers);
    BothAreLeased(u);
    NothingToClean(NODE, u, SHIFTED);
  }

  lemma BothAreLeased(s: State)
    requires AGaveWay(s)
    ensures forall d | d in s.store.order :: d in Deployments(Mine(NODE, Leases(SHIFTED)))
  {
    AskedOfTwo(true);
    forall d | d in s.store.order ensures d == "a" || d == "b" {
      assert Get(s.store, d).Some?;
    }
  }

  lemma DeviceOneIsFree(s: State)
    requires AGaveWay(s)
    ensures 1 !in Used(s.alloc)
  {
    forall e | e in s.alloc ensures 1 !in s.alloc[e] {
      assert Matches(s, e) && Entry(s.alloc, e) == s.alloc[e];
      assert 1 !in Elements([0]);
    }
  }

  lemma ASecondDevice(m: Allocations, d: string)
    requires 1 !in Used(m)
    ensures TryAllocate(2, m, d, 1, Foreign(m, {})).Granted?
  {
    var usable := Free(2, m) - Foreign(m, {});
    AllocateGrants(2, m, d, 1, Foreign(m, {}));
    assert 1 in usable;
    SubsetCardinality({1}, usable);
  }

  lemma AFindsADevice(s: State)
    requires AGaveWay(s)
    ensures ResumesFirst(NODE, s, BACK, s.store.runtimes["a"])
  {
    var r := s.store.runtimes["a"];
    AskedOfTwo(false);
    DeviceOneIsFree(s);
    ASecondDevice(s.alloc, "a");
    assert r.id == "a" && ResumeGpuCount(r) == 1;
    assert ResumeGrant(NODE, s, r, WORKS) == TryAllocate(2, s.alloc, "a", 1, Foreign(s.alloc, {}));
  }

  lemma StillShared(s: State, world: Docker)
    requires AGaveWay(s)
    ensures var c := Step(NODE, s, CrashedResume(s, BACK, world));
            !Sound(NODE.totalGpus, Reconcile(NODE, c, SHIFTED).alloc)
  {
    AFindsADevice(s);
    SharedLeases();
    assert 0 in Elements([0]);
    assert s.store.runtimes["a"].id == "a";
    OverlapOutlivesThePass(NODE, s, BACK, world, s.store.runtimes["a"], "b", SHIFTED);
  }

  lemma SharedLeases()
    ensures LeasedOnlySuspended(Mine(NODE, Leases(SHIFTED)), "a") && HasActiveLease(NODE, SHIFTED, "b")
    ensures Steady(NODE, SHIFTED)
  {
    AskedOfTwo(true);
  }

  lemma RunsOn(cfg: Config, s: State, e: Event, rest: seq<Event>)
    ensures Run(cfg, s, [e] + rest) == Run(cfg, Step(cfg, s, e), rest)
  {
    var events := [e] + rest;
    assert events[0] == e && events[1..] == rest;
  }

  // A fresh node with two devices: a replica runs, gives way to another and is killed
  // in its resume; suspended again, it shares device 0 with the other from then on.
  lemma OverlapIsReachable(world: Docker)
    ensures var s := Run(NODE, EMPTY, [ReconcilePass(ALONE)] + [ReconcilePass(SHIFTED)]);
            var c := Step(NODE, s, CrashedResume(s, BACK, world));
            Steady(NODE, SHIFTED) && !Sound(NODE.totalGpus, Reconcile(NODE, c, SHIFTED).alloc)
  {
    var s := Run(NODE, EMPTY, [ReconcilePass(ALONE)] + [ReconcilePass(SHIFTED)]);
    TwoPasses(s);
    StillShared(s, world);
    SharedLeases();
  }

  lemma TwoPasses(s: State)
    requires s == Run(NODE, EMPTY, [ReconcilePass(ALONE)] + [ReconcilePass(SHIFTED)])
    ensures AGaveWay(s)
  {
    var s1 := Step(NODE, EMPTY, ReconcilePass(ALONE));
    RunsOn(NODE, EMPTY, ReconcilePass(ALONE), [ReconcilePass(SHIFTED)]);
    RunsOn(NODE, s1, ReconcilePass(SHIFTED), []);
    assert [ReconcilePass(SHIFTED)] + [] == [ReconcilePass(SHIFTED)];
    AfterFirst();
    AfterSecond(s1);
  }
}
