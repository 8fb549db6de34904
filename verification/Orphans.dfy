/** The exact fate, in one pass, of a runtime that nothing leases on this node. */
module Orphans {
  import opened Common
  import opened Repository
  import opened NodeModel
  import opened Loops
  import opened Steps
  import opened WellFormedSteps

  // What the cleanup makes of a record: None is "removed".
  function Fate(r: Record, leasedHere: bool, deployment: DeploymentAnswer): Option<Record> {
    if leasedHere || r.status.Terminated? then Some(r)
    else if r.status.Suspended? then if deployment == Exists(DTerminated) then None else Some(r)
    else Some(r.(status := Terminated))
  }

  lemma OneFate(s: State, d: string, active: set<string>, fleet: set<string>, dep: DeploymentAnswer)
    requires WellFormed(s.store) && Get(s.store, d).Some?
    ensures Get(CleanupOne(s, d, active, fleet, dep).store, d) == Fate(Get(s.store, d).value, d in active, dep)
  {
    assert Get(s.store, d).value.id == d;
  }

  // Every record meets its own fate, whatever happens to the others.
  lemma {:induction false} CleanupFate(s: State, ids: seq<string>, active: set<string>, fleet: set<string>,
                                       dep: string -> DeploymentAnswer, i: nat, d: string)
    requires WellFormed(s.store) && NoDuplicates(ids) && i <= |ids| && Get(s.store, d).Some?
    ensures Get(CleanupLoop(s, ids, active, fleet, dep, i).store, d)
         == if d in ids[i..] then Fate(Get(s.store, d).value, d in active, dep(d)) else Get(s.store, d)
    decreases |ids| - i
  {
    if i < |ids| {
      var e := ids[i];
      var t := CleanupOne(s, e, active, fleet, dep(e));
      CleanupStaysWellFormed(s, e, active, fleet, dep(e));
      assert ids[i..] == [e] + ids[i + 1..];
      if e == d {
        OneFate(s, d, active, fleet, dep(d));
        CleanupLeavesOthers(t, ids, active, fleet, dep, i + 1, d);
      } else {
        CleanupOneServes(s, e, active, fleet, dep(e));
        CleanupFate(t, ids, active, fleet, dep, i + 1, d);
      }
    }
  }

  lemma {:induction false} CleanupLeavesOthers(s: State, ids: seq<string>, active: set<string>, fleet: set<string>,
                                               dep: string -> DeploymentAnswer, i: nat, d: string)
    requires WellFormed(s.store) && i <= |ids| && d !in ids[i..]
    ensures Get(CleanupLoop(s, ids, active, fleet, dep, i).store, d) == Get(s.store, d)
    decreases |ids| - i
  {
    if i < |ids| {
      assert ids[i..] == [ids[i]] + ids[i + 1..];
      CleanupOneServes(s, ids[i], active, fleet, dep(ids[i]));
      CleanupStaysWellFormed(s, ids[i], active, fleet, dep(ids[i]));
      CleanupLeavesOthers(CleanupOne(s, ids[i], active, fleet, dep(ids[i])), ids, active, fleet, dep, i + 1, d);
    }
  }

  lemma LeasesLeaveOthers(cfg: Config, s: State, inp: PassInput, d: string)
    requires WellFormed(s.store) && d !in Deployments(Mine(cfg, Leases(inp)))
    ensures var t := LeaseLoop(cfg, s, Mine(cfg, Leases(inp)), inp.answers, 0).state;
            WellFormed(t.store) && Get(t.store, d) == Get(s.store, d)
  {
    var mine := Mine(cfg, Leases(inp));
    var P := (x: State) => WellFormed(x.store) && Get(x.store, d) == Get(s.store, d);
    forall x: State, j: nat | j < |mine| && P(x) ensures P(HandleLease(cfg, x, mine[j], inp.answers(j)).state) {
      assert mine[j] in mine && mine[j].deployment != d;
      HandleLeaseServes(cfg, x, mine[j], inp.answers(j));
      LeaseStaysWellFormed(cfg, x, mine[j], inp.answers(j));
    }
    LeaseLoopKeeps(cfg, s, mine, inp.answers, 0, P);
  }

  // Without a lease on this node: untouched when the pass breaks off in a resume,
  // otherwise exactly the fate above, whatever else the pass does.
  lemma UnleasedFate(cfg: Config, s: State, inp: PassInput, d: string)
    requires WellFormed(s.store) && Get(s.store, d).Some? && d !in Deployments(Mine(cfg, Leases(inp)))
    ensures var o := LeaseLoop(cfg, s, Mine(cfg, Leases(inp)), inp.answers, 0);
            Get(Reconcile(cfg, s, inp).store, d)
              == if o.Crashed? then Get(s.store, d) else Fate(Get(s.store, d).value, false, inp.deployment(d))
  {
    LeasesLeaveOthers(cfg, s, inp, d);
    var o := LeaseLoop(cfg, s, Mine(cfg, Leases(inp)), inp.answers, 0);
    if o.Done? {
      var t := o.state;
      assert d in t.store.order;
      CleanupFate(t, t.store.order, Deployments(Mine(cfg, Leases(inp))), Deployments(Leases(inp)), inp.deployment, 0,
                  d);
      assert t.store.order[0..] == t.store.order;
    }
  }

  // A pass that cannot fetch the leases leaves a record alone if and only if it is
  // terminated, or suspended and not known to be terminated: running work is lost.
  lemma OutageSparesOnlySuspended(cfg: Config, s: State, inp: PassInput, d: string)
    requires WellFormed(s.store) && Get(s.store, d).Some? && inp.leases.None?
    ensures var r := Get(s.store, d).value;
            Get(Reconcile(cfg, s, inp).store, d) == Some(r) <==>
              r.status.Terminated? || (r.status.Suspended? && inp.deployment(d) != Exists(DTerminated))
  {
    assert Mine(cfg, Leases(inp)) == [];
    UnleasedFate(cfg, s, inp, d);
  }

  // Recovery, by contrast, keeps everything while the control plane is unreachable.
  lemma {:induction false} RecoveryOutageChangesNothing(s: State, ids: seq<string>, dep: string -> DeploymentAnswer,
                                                        i: nat)
    requires i <= |ids| && forall d :: dep(d).Unreachable?
    ensures RecoverLoop(s, ids, dep, i) == s
    decreases |ids| - i
  {
    if i < |ids| {
      RecoveryOutageChangesNothing(s, ids, dep, i + 1);
    }
  }
}
