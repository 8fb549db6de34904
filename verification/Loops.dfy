/** One induction per loop of a pass (the leases, the cleanup, the recovery): whatever
    every iteration keeps, the whole loop keeps, and so does the pass. All the results
    about whole passes are instances of these lemmas. */
module Loops {
  import opened NodeModel

  ghost predicate EachLeaseKeeps(cfg: Config, mine: seq<Lease>, answers: nat -> Answers, P: State -> bool) {
    forall s: State, j: nat | j < |mine| && P(s) :: P(HandleLease(cfg, s, mine[j], answers(j)).state)
  }

  lemma {:induction false} LeaseLoopKeeps(cfg: Config, s: State, mine: seq<Lease>, answers: nat -> Answers, i: nat,
                                          P: State -> bool)
    requires i <= |mine| && P(s) && EachLeaseKeeps(cfg, mine, answers, P)
    ensures P(LeaseLoop(cfg, s, mine, answers, i).state)
    decreases |mine| - i
  {
    if i < |mine| {
      var o := HandleLease(cfg, s, mine[i], answers(i));
      assert P(o.state);
      if o.Done? {
        LeaseLoopKeeps(cfg, o.state, mine, answers, i + 1, P);
      }
    }
  }

  ghost predicate EachCleanupKeeps(ids: seq<string>, active: set<string>, fleet: set<string>,
                                   dep: string -> DeploymentAnswer, P: State -> bool) {
    forall s: State, d | d in ids && P(s) :: P(CleanupOne(s, d, active, fleet, dep(d)))
  }

  lemma {:induction false} CleanupLoopKeeps(s: State, ids: seq<string>, active: set<string>, fleet: set<string>,
                                            dep: string -> DeploymentAnswer, i: nat, P: State -> bool)
    requires i <= |ids| && P(s) && EachCleanupKeeps(ids, active, fleet, dep, P)
    ensures P(CleanupLoop(s, ids, active, fleet, dep, i))
    decreases |ids| - i
  {
    if i < |ids| {
      assert ids[i] in ids;
      CleanupLoopKeeps(CleanupOne(s, ids[i], active, fleet, dep(ids[i])), ids, active, fleet, dep, i + 1, P);
    }
  }

  ghost predicate EachRecoverKeeps(ids: seq<string>, dep: string -> DeploymentAnswer, P: State -> bool) {
    forall s: State, d | d in ids && P(s) :: P(RecoverOne(s, d, dep(d)))
  }

  lemma {:induction false} RecoverLoopKeeps(s: State, ids: seq<string>, dep: string -> DeploymentAnswer, i: nat,
                                            P: State -> bool)
    requires i <= |ids| && P(s) && EachRecoverKeeps(ids, dep, P)
    ensures P(RecoverLoop(s, ids, dep, i))
    decreases |ids| - i
  {
    if i < |ids| {
      assert ids[i] in ids;
      RecoverLoopKeeps(RecoverOne(s, ids[i], dep(ids[i])), ids, dep, i + 1, P);
    }
  }

  // What a whole pass keeps, given what its iterations keep.
  lemma ReconcileKeeps(cfg: Config, s: State, inp: PassInput, P: State -> bool)
    requires P(s)
    requires EachLeaseKeeps(cfg, Mine(cfg, Leases(inp)), inp.answers, P)
    requires forall ids :: EachCleanupKeeps(ids, Deployments(Mine(cfg, Leases(inp))), Deployments(Leases(inp)),
                                            inp.deployment, P)
    ensures P(Reconcile(cfg, s, inp))
  {
    var mine := Mine(cfg, Leases(inp));
    LeaseLoopKeeps(cfg, s, mine, inp.answers, 0, P);
    var o := LeaseLoop(cfg, s, mine, inp.answers, 0);
    if o.Done? {
      var ids := o.state.store.order;
      assert EachCleanupKeeps(ids, Deployments(mine), Deployments(Leases(inp)), inp.deployment, P);
      CleanupLoopKeeps(o.state, ids, Deployments(mine), Deployments(Leases(inp)), inp.deployment, 0, P);
    }
  }
}
