/** What the first pass after a restart repairs: the overlaps that records left
    half-way bring back, but for one kind. */
module Healing {
  import opened Common
  import opened GpuAllocation
  import opened Repository
  import opened NodeModel
  import opened Loops
  import opened Exclusivity
  import opened Steps
  import opened WellFormedSteps
  import opened Runs
  import opened Lifecycle
  import opened ContainerIds
  import opened Stabilisation

  // The record of an own lease is one the pass brings to an end: an accepted one is
  // retried unless its lease is marked suspended.
  predicate Retried(o: Option<Record>, lease: Lease) {
    o.Some? && o.value.status.Accepted? ==> !lease.suspended
  }

  // The lease loop passes over a `preparing` record; no run has one.
  predicate Ending(o: Option<Record>, lease: Lease) {
    NotPreparing(o) && Retried(o, lease)
  }

  predicate Ended(o: Option<Record>) {
    o.None? || !(o.value.status.Accepted? || o.value.status.Preparing?)
  }

  ghost predicate AllEnding(s: State, mine: seq<Lease>, i: nat)
    requires i <= |mine|
  {
    forall j | i <= j < |mine| :: Ending(Get(s.store, mine[j].deployment), mine[j])
  }

  // No accepted record's own lease is marked suspended.
  ghost predicate AllRetried(cfg: Config, s: State, inp: PassInput) {
    forall l | l in Mine(cfg, Leases(inp)) :: Retried(Get(s.store, l.deployment), l)
  }

  ghost predicate NonePreparing(s: State) {
    forall d :: NotPreparing(Get(s.store, d))
  }

  ghost predicate EndedUpTo(s: State, mine: seq<Lease>, i: nat)
    requires i <= |mine|
  {
    forall j | 0 <= j < i :: Ended(Get(s.store, mine[j].deployment))
  }

  lemma DispatchEnds(cfg: Config, s: State, lease: Lease, a: Answers)
    requires Exclusive(cfg, s) && Calm(a) && Get(s.store, lease.deployment).None?
    ensures Ended(Get(DispatchGuarded(cfg, s, lease, a).store, lease.deployment))
  {
    assert Matches(s, lease.deployment);
    if a.workload.Found? {
      var r := FreshRecord(lease, a.workload.workload);
      if !r.kind.Unsupported? {
        StartEnds(cfg, Saved(s, r), r, a.workload.workload, a);
      }
    }
  }

  lemma LeaseEnds(cfg: Config, s: State, lease: Lease, a: Answers)
    requires Sane(cfg, s) && Calm(a) && Ending(Get(s.store, lease.deployment), lease)
    ensures Ended(Get(HandleLease(cfg, s, lease, a).state.store, lease.deployment))
  {
    match Get(s.store, lease.deployment)
    case None =>
      if !lease.suspended {
        DispatchEnds(cfg, s, lease, a);
      }
    case Some(r) =>
      assert r.id == lease.deployment;
      if !lease.suspended && r.status.Suspended? {
        ResumeSettles(cfg, s, r, a);
      } else if !lease.suspended && (r.status.Accepted? || r.status.Starting?) {
        RetryKeeps(cfg, s, r);
        DispatchEnds(cfg, Removed(TerminateRuntime(s, r, false), r.id), lease, a);
      }
  }

  lemma OthersEndToo(s: State, s': State, mine: seq<Lease>, i: nat)
    requires DistinctDeployments(mine) && i < |mine| && Serves(s, s', mine[i].deployment)
    requires EndedUpTo(s, mine, i) && AllEnding(s, mine, i) && Ended(Get(s'.store, mine[i].deployment))
    ensures EndedUpTo(s', mine, i + 1) && AllEnding(s', mine, i + 1)
  {
    forall j | 0 <= j < |mine| && j != i ensures Get(s'.store, mine[j].deployment) == Get(s.store, mine[j].deployment) {
      assert mine[j].deployment != mine[i].deployment;
    }
  }

  lemma OneMoreEnds(cfg: Config, s: State, mine: seq<Lease>, answers: nat -> Answers, i: nat)
    requires Sane(cfg, s) && DistinctDeployments(mine) && Calm(answers(i)) && i < |mine|
    requires EndedUpTo(s, mine, i) && AllEnding(s, mine, i)
    ensures var o := HandleLease(cfg, s, mine[i], answers(i));
            o.Done? && Sane(cfg, o.state) && EndedUpTo(o.state, mine, i + 1) && AllEnding(o.state, mine, i + 1)
  {
    var l, a := mine[i], answers(i);
    FirstTimeSettles(cfg, s, l, a);
    HandleLeaseKeeps(cfg, s, l, a);
    HandleLeaseAdvances(cfg, s, l, a);
    HandleLeaseServes(cfg, s, l, a);
    LeaseEnds(cfg, s, l, a);
    OthersEndToo(s, HandleLease(cfg, s, l, a).state, mine, i);
  }

  lemma {:induction false} LeasesEnd(cfg: Config, s: State, mine: seq<Lease>, answers: nat -> Answers, i: nat)
    requires Sane(cfg, s) && DistinctDeployments(mine) && AllCalm(mine, answers) && i <= |mine|
    requires EndedUpTo(s, mine, i) && AllEnding(s, mine, i)
    ensures var o := LeaseLoop(cfg, s, mine, answers, i);
            o.Done? && Sane(cfg, o.state) && EndedUpTo(o.state, mine, |mine|)
    decreases |mine| - i
  {
    if i < |mine| {
      OneMoreEnds(cfg, s, mine, answers, i);
      LeasesEnd(cfg, HandleLease(cfg, s, mine[i], answers(i)).state, mine, answers, i + 1);
    }
  }

  lemma EndedIsSound(cfg: Config, s: State)
    requires Exclusive(cfg, s) && forall d :: Ended(Get(s.store, d))
    ensures Sound(cfg.totalGpus, s.alloc)
  {
    forall d | d in s.alloc ensures s.alloc[d] <= DeviceIds(cfg.totalGpus) {
      assert Matches(s, d) && Ended(Get(s.store, d)) && Entry(s.alloc, d) == s.alloc[d];
    }
    forall d, e | d in s.alloc && e in s.alloc && d != e ensures EntryOf(s.alloc)(d) !! EntryOf(s.alloc)(e) {
      assert Matches(s, d) && Matches(s, e) && Ended(Get(s.store, d)) && Ended(Get(s.store, e));
    }
  }

  // Whatever overlap a reload left behind, the next pass removes all of it: every
  // entry is in range and no device has two holders.
  lemma NextPassHealsOverlap(cfg: Config, s: State, inp: PassInput)
    requires Sane(cfg, s) && NonePreparing(s) && Steady(cfg, inp) && AllRetried(cfg, s, inp)
    ensures Sound(cfg.totalGpus, Reconcile(cfg, s, inp).alloc)
  {
    var mine := Mine(cfg, Leases(inp));
    forall j | 0 <= j < |mine| ensures Ending(Get(s.store, mine[j].deployment), mine[j]) {
      assert mine[j] in mine;
    }
    LeasesEnd(cfg, s, mine, inp.answers, 0);
    var t, s1 := LeaseLoop(cfg, s, mine, inp.answers, 0).state, Reconcile(cfg, s, inp);
    assert t.store.order[0..] == t.store.order;
    CleanupReaps(cfg, t, t.store.order, Deployments(mine), Deployments(Leases(inp)), inp.deployment, 0);
    forall d ensures Ended(Get(s1.store, d)) {
      if d in Deployments(mine) {
        var l :| l in mine && l.deployment == d;
        var j :| 0 <= j < |mine| && mine[j] == l;
        assert Ended(Get(t.store, mine[j].deployment));
      } else {
        assert Reaped(s1, d, inp.deployment(d));
      }
    }
    EndedIsSound(cfg, s1);
  }

  // In particular after any run of a fresh node with any crashes in it, as long as no
  // accepted record's own lease is marked suspended.
  lemma NextPassHealsEveryCrash(cfg: Config, events: seq<Event>, inp: PassInput)
    requires Steady(cfg, inp) && AllRetried(cfg, Run(cfg, EMPTY, events), inp)
    ensures Sound(cfg.totalGpus, Reconcile(cfg, Run(cfg, EMPTY, events), inp).alloc)
  {
    EmptyIsSane(cfg);
    EveryRunIsSane(cfg, EMPTY, events);
    forall d ensures NotPreparing(Get(Run(cfg, EMPTY, events).store, d)) {
      NothingIsEverPreparing(cfg, EMPTY, events, d);
    }
    NextPassHealsOverlap(cfg, Run(cfg, EMPTY, events), inp);
  }

  ghost predicate LeasedOnlySuspended(mine: seq<Lease>, d: string) {
    d in Deployments(mine) && forall l | l in mine && l.deployment == d :: l.suspended
  }

  // What it never repairs: an accepted record whose lease is marked suspended is
  // neither retried nor suspended. Record and entry, overlap included, stay.
  lemma SuspendedLeaseFreezesAccepted(cfg: Config, s: State, inp: PassInput, d: string)
    requires WellFormed(s.store) && Get(s.store, d).Some? && Get(s.store, d).value.status.Accepted?
    requires LeasedOnlySuspended(Mine(cfg, Leases(inp)), d)
    ensures Get(Reconcile(cfg, s, inp).store, d) == Get(s.store, d)
    ensures Entry(Reconcile(cfg, s, inp).alloc, d) == Entry(s.alloc, d)
  {
    var mine := Mine(cfg, Leases(inp));
    var active, fleet := Deployments(mine), Deployments(Leases(inp));
    var P := (x: State) => WellFormed(x.store) && Get(x.store, d) == Get(s.store, d)
                           && Lookup(x.alloc, d) == Lookup(s.alloc, d);
    forall x: State, j: nat | j < |mine| && P(x) ensures P(HandleLease(cfg, x, mine[j], inp.answers(j)).state) {
      assert mine[j] in mine;
      LeaseStaysWellFormed(cfg, x, mine[j], inp.answers(j));
      HandleLeaseServes(cfg, x, mine[j], inp.answers(j));
    }
    forall x: State, e | P(x) ensures P(CleanupOne(x, e, active, fleet, inp.deployment(e))) {
      CleanupStaysWellFormed(x, e, active, fleet, inp.deployment(e));
      CleanupOneServes(x, e, active, fleet, inp.deployment(e));
    }
    ReconcileKeeps(cfg, s, inp, P);
  }
}
