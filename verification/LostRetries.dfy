/** Which half-done deployments the next pass takes up again after a crash, decided by
    the last state file written, and the one that is lost: a crash between the two
    writes of a retry. */
module LostRetries {
  import opened Common
  import opened Repository
  import opened NodeModel
  import opened Loops
  import opened Exclusivity
  import opened Steps
  import opened WellFormedSteps
  import opened Runs
  import opened Lifecycle

  // From s to s' something was reported about `d`, or a file with another record of
  // `d` was written.
  ghost predicate NewsOf(s: State, s': State, d: string) {
    || (exists i | |s.log| <= i < |s'.log| :: s'.log[i].deployment == d)
    || (exists i | |s.saves| <= i < |s'.saves| :: Get(s'.saves[i], d) != Get(s.store, d))
  }

  ghost predicate Untouched(s: State, s': State, d: string) {
    Appends(s, s') && WellFormed(s'.store) && Get(s'.store, d) == Get(s.store, d) && !NewsOf(s, s', d)
  }

  // The records for which the lease loop does nothing under an active lease. (None is
  // ever `preparing`: Lifecycle.NothingIsEverPreparing.)
  predicate Settles(o: Option<Record>) {
    o.Some? && (o.value.status.Ready? || o.value.status.Failed? || o.value.status.Terminated?
                || o.value.status.Preparing?)
  }

  // ------------------------------------------------------------------- no news

  lemma ServingOthersTouchesNot(s: State, x: State, y: State, e: string, d: string)
    requires Untouched(s, x, d) && Serves(x, y, e) && WellFormed(y.store) && e != d
    ensures Untouched(s, y, d)
  {
    forall i | |s.log| <= i < |y.log| ensures y.log[i].deployment != d {
      if i < |x.log| {
        assert y.log[i] == x.log[i];
      }
    }
    forall i | |s.saves| <= i < |y.saves| ensures Get(y.saves[i], d) == Get(s.store, d) {
      if i < |x.saves| {
        assert y.saves[i] == x.saves[i];
      }
    }
  }

  lemma SettledStaysUntouched(cfg: Config, s: State, inp: PassInput, d: string)
    requires WellFormed(s.store) && Settles(Get(s.store, d)) && d in Deployments(Mine(cfg, Leases(inp)))
    requires forall l | l in Mine(cfg, Leases(inp)) && l.deployment == d :: !l.suspended
    ensures Untouched(s, Reconcile(cfg, s, inp), d)
  {
    var mine := Mine(cfg, Leases(inp));
    var active, fleet := Deployments(mine), Deployments(Leases(inp));
    var P := (x: State) => Untouched(s, x, d);
    forall x: State, j: nat | j < |mine| && P(x) ensures P(HandleLease(cfg, x, mine[j], inp.answers(j)).state) {
      var l, a := mine[j], inp.answers(j);
      assert l in mine;
      if l.deployment != d {
        LeaseStaysWellFormed(cfg, x, l, a);
        HandleLeaseServes(cfg, x, l, a);
        ServingOthersTouchesNot(s, x, HandleLease(cfg, x, l, a).state, l.deployment, d);
      }
    }
    forall x: State, e | P(x) ensures P(CleanupOne(x, e, active, fleet, inp.deployment(e))) {
      if e != d {
        CleanupStaysWellFormed(x, e, active, fleet, inp.deployment(e));
        CleanupOneServes(x, e, active, fleet, inp.deployment(e));
        ServingOthersTouchesNot(s, x, CleanupOne(x, e, active, fleet, inp.deployment(e)), e, d);
      }
    }
    ReconcileKeeps(cfg, s, inp, P);
  }

  // ---------------------------------------------------------------------- news

  lemma NewsLasts(s: State, x: State, y: State, d: string)
    requires NewsOf(s, x, d) && Appends(x, y)
    ensures NewsOf(s, y, d)
  {
    if i :| |s.log| <= i < |x.log| && x.log[i].deployment == d {
      assert y.log[i] == x.log[i];
    } else {
      var i :| |s.saves| <= i < |x.saves| && Get(x.saves[i], d) != Get(s.store, d);
      assert y.saves[i] == x.saves[i];
    }
  }

  lemma NewsSince(s: State, x: State, y: State, d: string)
    requires Untouched(s, x, d) && NewsOf(x, y, d)
    ensures NewsOf(s, y, d)
  {}

  lemma DispatchIsNews(cfg: Config, s: State, lease: Lease, a: Answers)
    requires Get(s.store, lease.deployment).None?
    ensures NewsOf(s, DispatchGuarded(cfg, s, lease, a), lease.deployment)
  {
    var d, s' := lease.deployment, DispatchGuarded(cfg, s, lease, a);
    DispatchAppends(cfg, s, lease, a);
    if a.workload.Found? {
      FirstFileOfDispatch(cfg, s, lease, a);
      assert Get(s'.saves[|s.saves|], d).Some?;
    } else {
      assert s'.log[|s.log|].deployment == d;
    }
  }

  lemma FirstFileOfDispatch(cfg: Config, s: State, lease: Lease, a: Answers)
    requires a.workload.Found?
    ensures var r := FreshRecord(lease, a.workload.workload);
            s.saves + [Put(s.store, r)] <= DispatchGuarded(cfg, s, lease, a).saves
  {
    var w := a.workload.workload;
    var r := FreshRecord(lease, w);
    if !w.kind.Unsupported? {
      StartAppends(cfg, Saved(s, r), r, w, a);
      assert Dispatch(cfg, s, lease, a) == StartRuntime(cfg, Saved(s, r), r, w, a);
    }
  }

  // The retry writes the record as terminated before it writes anything else.
  lemma FirstFileOfRetry(cfg: Config, s: State, lease: Lease, a: Answers)
    requires WellFormed(s.store) && Get(s.store, lease.deployment).Some? && !lease.suspended
    requires var status := Get(s.store, lease.deployment).value.status; status.Accepted? || status.Starting?
    ensures var o := HandleLease(cfg, s, lease, a);
            var gone := Get(s.store, lease.deployment).value.(status := Terminated);
            o.Done? && s.saves + [Put(s.store, gone)] <= o.state.saves && s.log <= o.state.log
  {
    var r := Get(s.store, lease.deployment).value;
    assert r.id == lease.deployment;
    var s1 := Removed(TerminateRuntime(s, r, false), r.id);
    assert s.saves + [Put(s.store, r.(status := Terminated))] <= s1.saves;
    DispatchAppends(cfg, s1, lease, a);
  }

  lemma RetryIsNews(cfg: Config, s: State, lease: Lease, a: Answers)
    requires WellFormed(s.store) && !lease.suspended
    requires var o := Get(s.store, lease.deployment); !Settles(o) && (o.Some? ==> !o.value.status.Suspended?)
    ensures NewsOf(s, HandleLease(cfg, s, lease, a).state, lease.deployment)
  {
    var d, s' := lease.deployment, HandleLease(cfg, s, lease, a).state;
    match Get(s.store, d)
    case None => DispatchIsNews(cfg, s, lease, a);
    case Some(r) =>
      assert r.id == d;
      FirstFileOfRetry(cfg, s, lease, a);
      assert s'.saves[|s.saves|] == Put(s.store, r.(status := Terminated));
      assert Get(s'.saves[|s.saves|], d) != Get(s.store, d);
  }

  lemma LoopKeepsNews(cfg: Config, s: State, x: State, mine: seq<Lease>, answers: nat -> Answers, i: nat, d: string)
    requires i <= |mine| && NewsOf(s, x, d)
    ensures NewsOf(s, LeaseLoop(cfg, x, mine, answers, i).state, d)
  {
    var P := (y: State) => NewsOf(s, y, d);
    forall y: State, j: nat | j < |mine| && P(y) ensures P(HandleLease(cfg, y, mine[j], answers(j)).state) {
      HandleLeaseAppends(cfg, y, mine[j], answers(j));
      NewsLasts(s, y, HandleLease(cfg, y, mine[j], answers(j)).state, d);
    }
    LeaseLoopKeeps(cfg, x, mine, answers, i, P);
  }

  lemma {:induction false} LoopMakesNews(cfg: Config, s: State, x: State, mine: seq<Lease>, answers: nat -> Answers,
                                         i: nat, d: string)
    requires i <= |mine| && Untouched(s, x, d) && d in Deployments(mine[i..])
    requires forall l | l in mine && l.deployment == d :: !l.suspended
    requires !Settles(Get(s.store, d)) && (Get(s.store, d).Some? ==> !Get(s.store, d).value.status.Suspended?)
    requires LeaseLoop(cfg, x, mine, answers, i).Done?
    ensures NewsOf(s, LeaseLoop(cfg, x, mine, answers, i).state, d)
    decreases |mine| - i
  {
    var l, a := mine[i], answers(i);
    assert l in mine && mine[i..] == [l] + mine[i + 1..];
    var y := HandleLease(cfg, x, l, a).state;
    if l.deployment == d {
      RetryIsNews(cfg, x, l, a);
      NewsSince(s, x, y, d);
      LoopKeepsNews(cfg, s, y, mine, answers, i + 1, d);
    } else {
      LeaseStaysWellFormed(cfg, x, l, a);
      HandleLeaseServes(cfg, x, l, a);
      ServingOthersTouchesNot(s, x, y, l.deployment, d);
      LoopMakesNews(cfg, s, y, mine, answers, i + 1, d);
    }
  }

  lemma CleanupAppends(s: State, d: string, active: set<string>, fleet: set<string>, dep: DeploymentAnswer)
    ensures Appends(s, CleanupOne(s, d, active, fleet, dep))
  {}

  lemma CleanupKeepsNews(s: State, x: State, ids: seq<string>, active: set<string>, fleet: set<string>,
                         dep: string -> DeploymentAnswer, d: string)
    requires NewsOf(s, x, d)
    ensures NewsOf(s, CleanupLoop(x, ids, active, fleet, dep, 0), d)
  {
    var P := (y: State) => NewsOf(s, y, d);
    forall y: State, e | P(y) ensures P(CleanupOne(y, e, active, fleet, dep(e))) {
      CleanupAppends(y, e, active, fleet, dep(e));
      NewsLasts(s, y, CleanupOne(y, e, active, fleet, dep(e)), d);
    }
    CleanupLoopKeeps(x, ids, active, fleet, dep, 0, P);
  }

  // ---------------------------------------------------------------- the condition

  ghost predicate HasActiveLease(cfg: Config, inp: PassInput, d: string) {
    var mine := Mine(cfg, Leases(inp));
    d in Deployments(mine) && forall l | l in mine && l.deployment == d :: !l.suspended
  }

  // No exception escapes the lease loop, and `d` does not wait to be resumed.
  ghost predicate ReachesItsLease(cfg: Config, s: State, inp: PassInput, d: string) {
    && LeaseLoop(cfg, s, Mine(cfg, Leases(inp)), inp.answers, 0).Done?
    && (Get(s.store, d).Some? ==> !Get(s.store, d).value.status.Suspended?)
  }

  // A pass that runs through takes up a deployment with an active own lease if and
  // only if the agent does not hold it as settled already. (A suspended one is resumed
  // instead.)
  lemma PassTakesUpIff(cfg: Config, s: State, inp: PassInput, d: string)
    requires WellFormed(s.store) && HasActiveLease(cfg, inp, d) && ReachesItsLease(cfg, s, inp, d)
    ensures NewsOf(s, Reconcile(cfg, s, inp), d) <==> !Settles(Get(s.store, d))
  {
    if Settles(Get(s.store, d)) {
      SettledStaysUntouched(cfg, s, inp, d);
    } else {
      var mine := Mine(cfg, Leases(inp));
      assert mine[0..] == mine;
      LoopMakesNews(cfg, s, s, mine, inp.answers, 0, d);
      var t := LeaseLoop(cfg, s, mine, inp.answers, 0).state;
      CleanupKeepsNews(s, t, t.store.order, Deployments(mine), Deployments(Leases(inp)), inp.deployment, d);
    }
  }

  lemma CrashLeavesFile(cfg: Config, s: State, inp: PassInput, k: nat, world: Docker, n: nat)
    requires Exclusive(cfg, s) && |s.saves| < k <= |Reconcile(cfg, s, inp).saves|
    ensures var c := Step(cfg, s, CrashInReconcile(inp, k, world, n));
            && c.store == Reconcile(cfg, s, inp).saves[k - 1] && WellFormed(c.store)
            && (n == |s.log| ==> c.log == s.log)
  {
    ReconcileKeepsExclusive(cfg, s, inp);
    PassOnlyAppends(cfg, s, inp);
  }

  // After a crash at any write of a pass, the next pass takes `d` up if and only if
  // the last file written does not hold it as settled already.
  lemma CrashIsRetriedIff(cfg: Config, s: State, crash: PassInput, k: nat, world: Docker, n: nat, inp: PassInput,
                          d: string)
    requires Exclusive(cfg, s) && |s.saves| < k <= |Reconcile(cfg, s, crash).saves|
    requires HasActiveLease(cfg, inp, d)
    requires ReachesItsLease(cfg, Step(cfg, s, CrashInReconcile(crash, k, world, n)), inp, d)
    ensures var c := Step(cfg, s, CrashInReconcile(crash, k, world, n));
            var lastFile := Reconcile(cfg, s, crash).saves[k - 1];
            NewsOf(c, Reconcile(cfg, c, inp), d) <==> !Settles(Get(lastFile, d))
  {
    CrashLeavesFile(cfg, s, crash, k, world, n);
    PassTakesUpIff(cfg, Step(cfg, s, CrashInReconcile(crash, k, world, n)), inp, d);
  }

  predicate Decided(o: Option<Record>) {
    o.Some? && (o.value.status.Ready? || o.value.status.Failed? || o.value.status.Terminated?)
  }

  // So after any run of a fresh node, crashes included: the next pass takes `d` up if
  // and only if the last file does not hold it as ready, failed or terminated.
  lemma EveryCrashIsRetriedIff(cfg: Config, events: seq<Event>, crash: PassInput, k: nat, world: Docker, n: nat,
                               inp: PassInput, d: string)
    requires var s := Run(cfg, EMPTY, events); |s.saves| < k <= |Reconcile(cfg, s, crash).saves|
    requires var c := Step(cfg, Run(cfg, EMPTY, events), CrashInReconcile(crash, k, world, n));
             HasActiveLease(cfg, inp, d) && ReachesItsLease(cfg, c, inp, d)
    ensures var s := Run(cfg, EMPTY, events);
            var c := Step(cfg, s, CrashInReconcile(crash, k, world, n));
            NewsOf(c, Reconcile(cfg, c, inp), d) <==> !Decided(Get(Reconcile(cfg, s, crash).saves[k - 1], d))
  {
    var s := Run(cfg, EMPTY, events);
    var e := CrashInReconcile(crash, k, world, n);
    EmptyIsOk(cfg);
    EveryRunIsExclusive(cfg, EMPTY, events);
    CrashIsRetriedIff(cfg, s, crash, k, world, n, inp, d);
    CrashLeavesFile(cfg, s, crash, k, world, n);
    NothingIsEverPreparing(cfg, EMPTY, events, d);
    StepPreparesNothing(cfg, s, e, d, NotPreparing);
  }

  // ------------------------------------------------------------------ the lost one

  lemma CleanupOnlyAppends(cfg: Config, t: State, inp: PassInput)
    ensures t.saves <= Cleanup(cfg, t, inp).saves
  {
    var active, fleet := Deployments(Mine(cfg, Leases(inp))), Deployments(Leases(inp));
    var P := (y: State) => t.saves <= y.saves;
    CleanupLoopKeeps(t, t.store.order, active, fleet, inp.deployment, 0, P);
  }

  lemma LoopOnlyAppends(cfg: Config, x: State, mine: seq<Lease>, answers: nat -> Answers, i: nat)
    requires i <= |mine|
    ensures x.saves <= LeaseLoop(cfg, x, mine, answers, i).state.saves
  {
    var P := (y: State) => x.saves <= y.saves;
    forall y: State, j: nat | j < |mine| && P(y) ensures P(HandleLease(cfg, y, mine[j], answers(j)).state) {
      HandleLeaseAppends(cfg, y, mine[j], answers(j));
    }
    LeaseLoopKeeps(cfg, x, mine, answers, i, P);
  }

  lemma RestOfPassAppends(cfg: Config, s: State, x: State, inp: PassInput)
    requires Mine(cfg, Leases(inp)) != [] && HandleLease(cfg, s, Mine(cfg, Leases(inp))[0], inp.answers(0)) == Done(x)
    ensures x.saves <= Reconcile(cfg, s, inp).saves
  {
    var mine := Mine(cfg, Leases(inp));
    assert LeaseLoop(cfg, s, mine, inp.answers, 0) == LeaseLoop(cfg, x, mine, inp.answers, 1);
    LoopOnlyAppends(cfg, x, mine, inp.answers, 1);
    CleanupOnlyAppends(cfg, LeaseLoop(cfg, x, mine, inp.answers, 1).state, inp);
  }

  // The input: a stuck deployment whose lease is active, and a crash right after the
  // first write of its retry. The control plane is told nothing, and no pass,
  // recovery or restart ever takes it up again.
  lemma CrashInRetryLosesDeployment(cfg: Config, s: State, inp: PassInput, world: Docker, later: seq<Event>)
    requires Exclusive(cfg, s) && Mine(cfg, Leases(inp)) != [] && !Mine(cfg, Leases(inp))[0].suspended
    requires var o := Get(s.store, Mine(cfg, Leases(inp))[0].deployment);
             o.Some? && (o.value.status.Accepted? || o.value.status.Starting?)
    ensures var d := Mine(cfg, Leases(inp))[0].deployment;
            var c := Step(cfg, s, CrashInReconcile(inp, |s.saves| + 1, world, |s.log|));
            && c.log == s.log
            && Get(c.store, d) == Some(Get(s.store, d).value.(status := Terminated))
            && Get(Run(cfg, c, later).store, d) == Get(c.store, d)
  {
    var l := Mine(cfg, Leases(inp))[0];
    var e := CrashInReconcile(inp, |s.saves| + 1, world, |s.log|);
    FirstFileOfRetry(cfg, s, l, inp.answers(0));
    var x := HandleLease(cfg, s, l, inp.answers(0)).state;
    RestOfPassAppends(cfg, s, x, inp);
    assert Reconcile(cfg, s, inp).saves[|s.saves|] == x.saves[|s.saves|];
    CrashLeavesFile(cfg, s, inp, |s.saves| + 1, world, |s.log|);
    GoneForGood(cfg, s, e, l.deployment, later);
  }

  lemma GoneForGood(cfg: Config, s: State, e: Event, d: string, later: seq<Event>)
    requires Exclusive(cfg, s)
    requires var o := Get(Step(cfg, s, e).store, d); o.Some? && o.value.status.Terminated?
    ensures Get(Run(cfg, Step(cfg, s, e), later).store, d) == Get(Step(cfg, s, e).store, d)
  {
    StepKeepsExclusive(cfg, s, e);
    TerminatedIsForever(cfg, Step(cfg, s, e), later, d);
  }
}
