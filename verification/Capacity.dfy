/** What the heartbeat advertises can be honoured (build_capacity_update). */
module Capacity {
  import opened Common
  import opened GpuAllocation
  import opened Repository
  import opened NodeModel
  import opened Exclusivity
  import opened Starts

  predicate Live(r: Record) {
    r.status in {Accepted, Preparing, Starting, Ready}
  }

  // A live record counts for the devices it names, or else for its count, and for one
  // GPU at least.
  function Reservation(r: Record): nat {
    if !Live(r) then 0
    else if |r.gpuDevices| > 0 then |r.gpuDevices|
    else
      match r.gpuCount
      case None => 1
      case Some(k) => if k == 0 then 1 else k
  }

  function ReservedFor(store: Store): string -> nat {
    d => if d in store.runtimes then Reservation(store.runtimes[d]) else 0
  }

  lemma OneMoreKey(order: seq<string>, k: nat)
    requires NoDuplicates(order) && k < |order|
    ensures Elements(order[..k + 1]) == Elements(order[..k]) + {order[k]} && order[k] !in Elements(order[..k])
  {
    assert order[..k + 1] == order[..k] + [order[k]];
  }

  // The loop over the snapshot adds up one term per record, whatever the order.
  lemma {:induction false} ReservedLoopIsSum(store: Store, k: nat)
    requires WellFormed(store) && k <= |store.order|
    ensures ReservedLoop(Records(store)[..k]) == Sum(Elements(store.order[..k]), ReservedFor(store))
  {
    var rs := Records(store);
    if k == 0 {
      assert Elements(store.order[..0]) == {};
    } else {
      var d, keys := store.order[k - 1], Elements(store.order[..k]);
      ReservedLoopIsSum(store, k - 1);
      OneMoreKey(store.order, k - 1);
      assert d in store.order;
      assert rs[..k][..k - 1] == rs[..k - 1];
      SumPick(keys, d, ReservedFor(store));
      assert keys - {d} == Elements(store.order[..k - 1]);
    }
  }

  lemma ReservedTotal(store: Store)
    requires WellFormed(store)
    ensures ReservedLoop(Records(store)) == Sum(store.runtimes.Keys, ReservedFor(store))
  {
    ReservedLoopIsSum(store, |store.order|);
    assert Records(store)[..|store.order|] == Records(store);
    assert store.order[..|store.order|] == store.order;
    forall d ensures d in Elements(store.order) <==> d in store.runtimes.Keys {
      assert d in store.order <==> d in store.runtimes;
    }
    assert Elements(store.order) == store.runtimes.Keys;
  }

  // Whatever overlaps and whoever is busy, the figure is the GPUs of the node less what
  // its records count for and less what strangers use, and never negative.
  lemma AdvertisedTotal(cfg: Config, s: State, busy: set<int>)
    requires WellFormed(s.store)
    ensures var left := cfg.totalGpus - Sum(s.store.runtimes.Keys, ReservedFor(s.store)) - |busy - Used(s.alloc)|;
            AvailableGpus(cfg, s, busy) == if left < 0 then 0 else left
  {
    ReservedTotal(s.store);
  }

  // No record that is still accepted holds devices it does not name. (One left
  // over from an exception after allocation does.)
  ghost predicate Recorded(s: State) {
    forall d | d in s.store.runtimes && Active(s.store.runtimes[d].status) ::
      Entry(s.alloc, d) <= Devices(s.store.runtimes[d])
  }

  lemma HeldIsReserved(cfg: Config, s: State, d: string)
    requires Exclusive(cfg, s) && Recorded(s) && d in s.store.runtimes
    ensures |Entry(s.alloc, d)| <= Reservation(s.store.runtimes[d])
  {
    assert Matches(s, d) && RecordOk(cfg, s.store.runtimes[d]);
    var r := s.store.runtimes[d];
    if Active(r.status) {
      SubsetCardinality(Entry(s.alloc, d), Devices(r));
      NoDuplicatesCardinality(r.gpuDevices);
      if r.gpuDevices == [] {
        assert Devices(r) == {};
      }
    }
  }

  lemma UsedByRecords(cfg: Config, s: State)
    requires Exclusive(cfg, s)
    ensures Used(s.alloc) == Union(s.store.runtimes.Keys, EntryOf(s.alloc))
  {
    var u := Union(s.store.runtimes.Keys, EntryOf(s.alloc));
    forall x | x in Used(s.alloc) ensures x in u {
      var d :| d in s.alloc && x in s.alloc[d];
      assert Matches(s, d) && x in EntryOf(s.alloc)(d);
    }
    forall x | x in u ensures x in Used(s.alloc) {
      var d :| d in s.store.runtimes.Keys && x in EntryOf(s.alloc)(d);
      assert x in s.alloc[d];
    }
  }

  lemma UsedIsReserved(cfg: Config, s: State)
    requires Exclusive(cfg, s) && Recorded(s)
    ensures |Used(s.alloc)| <= ReservedLoop(Records(s.store))
  {
    var keys := s.store.runtimes.Keys;
    forall d | d in keys ensures SizeOf(EntryOf(s.alloc))(d) <= ReservedFor(s.store)(d) {
      HeldIsReserved(cfg, s, d);
    }
    SumMonotone(keys, SizeOf(EntryOf(s.alloc)), ReservedFor(s.store));
    SumOfSizes(keys, EntryOf(s.alloc));
    UsedByRecords(cfg, s);
    ReservedTotal(s.store);
  }

  // Advertised capacity is honourable: that many devices are free and not in use
  // by strangers, even when reloaded allocations overlap, so one allocation of up
  // to that many devices with the same avoid set succeeds.
  lemma AdvertisedIsHonourable(cfg: Config, s: State, busy: set<int>, d: string, n: int)
    requires Exclusive(cfg, s) && Recorded(s)
    ensures var foreign := Foreign(s.alloc, busy);
            && AvailableGpus(cfg, s, busy) <= |Free(cfg.totalGpus, s.alloc) - foreign|
            && (0 < n <= AvailableGpus(cfg, s, busy) ==> TryAllocate(cfg.totalGpus, s.alloc, d, n, foreign).Granted?)
  {
    var foreign, free := Foreign(s.alloc, busy), Free(cfg.totalGpus, s.alloc);
    UsedIsReserved(cfg, s);
    FreeCount(cfg.totalGpus, s.alloc);
    DifferenceCardinality(free, foreign);
    if n > 0 {
      AllocateGrants(cfg.totalGpus, s.alloc, d, n, foreign);
    }
  }

  lemma DifferenceCardinality(a: set<int>, b: set<int>)
    ensures |a - b| >= |a| - |b|
    ensures b <= a ==> |a - b| == |a| - |b|
  {
    assert a == (a - b) + (a * b);
    assert |a| == |a - b| + |a * b|;
    SubsetCardinality(a * b, b);
    if b <= a {
      assert a * b == b;
    }
  }

  // Every live record names exactly the devices it holds; one that names none is a
  // CPU-only pod and holds none.
  ghost predicate Exact(s: State) {
    && (forall d | d in s.store.runtimes && Live(s.store.runtimes[d]) ::
          Entry(s.alloc, d) == Devices(s.store.runtimes[d])
          && (s.store.runtimes[d].gpuDevices == [] ==> s.store.runtimes[d].gpuCount == Some(0)))
    && PairwiseDisjoint(s.store.runtimes.Keys, EntryOf(s.alloc))
  }

  // The live records that run on no device.
  function CpuOnly(s: State): set<string> {
    set d | d in s.store.runtimes && Live(s.store.runtimes[d]) && s.store.runtimes[d].gpuDevices == []
  }

  lemma {:induction false} SumWithExtras(keys: set<string>, a: string -> nat, b: string -> nat, extra: set<string>)
    requires extra <= keys && forall k | k in keys :: b(k) == a(k) + if k in extra then 1 else 0
    ensures Sum(keys, b) == Sum(keys, a) + |extra|
    decreases keys
  {
    if keys != {} {
      var k := Pick(keys);
      SumPick(keys, k, a);
      SumPick(keys, k, b);
      SumWithExtras(keys - {k}, a, b, extra - {k});
    }
  }

  lemma OneReservation(cfg: Config, s: State, d: string)
    requires Exclusive(cfg, s) && Exact(s) && d in s.store.runtimes
    ensures ReservedFor(s.store)(d) == SizeOf(EntryOf(s.alloc))(d) + if d in CpuOnly(s) then 1 else 0
    ensures Entry(s.alloc, d) <= DeviceIds(cfg.totalGpus)
  {
    var r := s.store.runtimes[d];
    assert Matches(s, d) && RecordOk(cfg, r);
    NoDuplicatesCardinality(r.gpuDevices);
    if r.gpuDevices == [] {
      assert Devices(r) == {};
    }
  }

  lemma ExactCount(cfg: Config, s: State)
    requires Exclusive(cfg, s) && Exact(s)
    ensures ReservedLoop(Records(s.store)) == |Used(s.alloc)| + |CpuOnly(s)|
    ensures Used(s.alloc) <= DeviceIds(cfg.totalGpus)
  {
    var keys := s.store.runtimes.Keys;
    forall d | d in keys
      ensures ReservedFor(s.store)(d) == SizeOf(EntryOf(s.alloc))(d) + if d in CpuOnly(s) then 1 else 0
      ensures Entry(s.alloc, d) <= DeviceIds(cfg.totalGpus)
    {
      OneReservation(cfg, s, d);
    }
    SumWithExtras(keys, SizeOf(EntryOf(s.alloc)), ReservedFor(s.store), CpuOnly(s));
    SumOfSizes(keys, EntryOf(s.alloc));
    UsedByRecords(cfg, s);
    ReservedTotal(s.store);
    forall x | x in Used(s.alloc) ensures x in DeviceIds(cfg.totalGpus) {
      var d :| d in keys && x in EntryOf(s.alloc)(d);
    }
  }

  lemma IdleCount(total: nat, m: Allocations, busy: set<int>)
    requires busy <= DeviceIds(total) && Used(m) <= DeviceIds(total)
    ensures |Free(total, m) - busy| == total - |Used(m)| - |Foreign(m, busy)|
  {
    var foreign, free := Foreign(m, busy), Free(total, m);
    FreeCount(total, m);
    assert foreign <= free && free - busy == free - foreign;
    DifferenceCardinality(free, foreign);
  }

  // And the figure is exact: without overlap, and with a probe that reports devices of
  // this node, it is the devices that are free and not in use, less one for every
  // CPU-only pod, as those count for a GPU too.
  lemma AdvertisedIsExact(cfg: Config, s: State, busy: set<int>)
    requires Exclusive(cfg, s) && Exact(s) && busy <= DeviceIds(cfg.totalGpus)
    ensures var idle := |Free(cfg.totalGpus, s.alloc) - busy|;
            AvailableGpus(cfg, s, busy) == if idle > |CpuOnly(s)| then idle - |CpuOnly(s)| else 0
  {
    ExactCount(cfg, s);
    IdleCount(cfg.totalGpus, s.alloc, busy);
  }

  predicate EverythingWorks(a: Answers) {
    a.sshReady && a.preparation.Prepared? && a.backendStarts
  }

  // From advertisement to service: a new lease for at most the advertised number of
  // GPUs, with the same busy devices and a working backend, ends ready on that many.
  lemma AdvertisedGpusServe(cfg: Config, s: State, lease: Lease, a: Answers, w: Workload)
    requires Exclusive(cfg, s) && Recorded(s)
    requires Get(s.store, lease.deployment).None? && !lease.suspended
    requires a.workload == Found(w) && !w.kind.Unsupported? && EverythingWorks(a)
    requires Asked(w.kind, w) <= AvailableGpus(cfg, s, a.startBusy)
    ensures var s' := HandleLease(cfg, s, lease, a).state;
            && Get(s'.store, lease.deployment).Some?
            && var r := Get(s'.store, lease.deployment).value;
            && r.status.Ready? && |r.gpuDevices| == Asked(w.kind, w)
            && Elements(r.gpuDevices) <= Free(cfg.totalGpus, s.alloc) - a.startBusy
  {
    var n := GpusWanted(w.kind, w);
    var r := FreshRecord(lease, w);
    var s1 := Saved(s, r);
    var foreign := Foreign(s.alloc, a.startBusy);
    var g := StartGrant(cfg, s1, r, w, a);
    if n > 0 {
      AdvertisedIsHonourable(cfg, s, a.startBusy, r.id, n);
      AllocateGrants(cfg.totalGpus, s.alloc, r.id, n, foreign);
      GrantIsUsable(cfg, s, a.startBusy, g.devices);
    }
    LaunchServes(cfg, s1.(alloc := g.after), r, w, n, g.devices, a);
    assert StartRuntime(cfg, s1, r, w, a) == Launch(cfg, s1.(alloc := g.after), r, w, n, g.devices, a);
    assert HandleLease(cfg, s, lease, a) == StartRuntime(cfg, s1, r, w, a);
  }

  // Outside our own devices, not foreign means not busy.
  lemma GrantIsUsable(cfg: Config, s: State, busy: set<int>, devices: seq<int>)
    requires Elements(devices) <= Free(cfg.totalGpus, s.alloc) - Foreign(s.alloc, busy)
    ensures Elements(devices) <= Free(cfg.totalGpus, s.alloc) - busy
  {}

  lemma LaunchServes(cfg: Config, s: State, r: Record, w: Workload, n: nat, devices: seq<int>, a: Answers)
    requires EverythingWorks(a)
    ensures var o := Launch(cfg, s, r, w, n, devices, a);
            && o.Done? && Get(o.state.store, r.id).Some?
            && Get(o.state.store, r.id).value.status.Ready?
            && Get(o.state.store, r.id).value.gpuDevices == devices
  {}
}
