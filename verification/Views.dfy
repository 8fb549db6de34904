/** What the agent holds of one deployment: its record, its devices, and what the
    control plane was told about it. A step that serves another deployment leaves this
    view alone, so in a loop over distinct deployments only one turn counts for it. */
module Views {
  import opened Common
  import opened GpuAllocation
  import opened Repository
  import opened NodeModel
  import opened Steps
  import opened WellFormedSteps

  // The states reported for `d`, oldest first.
  function ReportsOf(log: seq<Report>, d: string): seq<DeploymentState> {
    if log == [] then []
    else
      var earlier, last := ReportsOf(log[..|log| - 1], d), log[|log| - 1];
      if last.deployment == d then earlier + [last.state] else earlier
  }

  datatype View = View(record: Option<Record>, devices: set<int>, told: seq<DeploymentState>)

  function ViewOf(s: State, d: string): View {
    View(Get(s.store, d), Entry(s.alloc, d), ReportsOf(s.log, d))
  }

  lemma ReportsAppend(log: seq<Report>, r: Report, d: string)
    ensures ReportsOf(log + [r], d) == ReportsOf(log, d) + if r.deployment == d then [r.state] else []
  {
    assert (log + [r])[..|log|] == log;
  }

  lemma {:induction false} ReportsOfOthers(log: seq<Report>, more: seq<Report>, d: string)
    requires forall i | 0 <= i < |more| :: more[i].deployment != d
    ensures ReportsOf(log + more, d) == ReportsOf(log, d)
  {
    if more == [] {
      assert log + more == log;
    } else {
      var init, last := more[..|more| - 1], more[|more| - 1];
      ReportsOfOthers(log, init, d);
      ReportsAppend(log + init, last, d);
      assert log + more == log + init + [last];
    }
  }

  // A step for somebody else leaves the view alone.
  lemma ServesOthers(s: State, s': State, e: string, d: string)
    requires Serves(s, s', e) && e != d
    ensures ViewOf(s', d) == ViewOf(s, d)
  {
    assert s'.log == s.log + s'.log[|s.log|..];
    ReportsOfOthers(s.log, s'.log[|s.log|..], d);
    assert Lookup(s'.alloc, d) == Lookup(s.alloc, d);
  }

  // ---------------------------------------------------------------- single steps

  lemma TerminatedView(s: State, r: Record, report: bool)
    ensures ViewOf(TerminateRuntime(s, r, report), r.id)
         == View(Some(r.(status := Terminated)), {}, ReportsOf(s.log, r.id) + if report then [DTerminated] else [])
    ensures ViewOf(Removed(TerminateRuntime(s, r, report), r.id), r.id)
         == View(None, {}, ReportsOf(s.log, r.id) + if report then [DTerminated] else [])
  {
    ReportsAppend(s.log, Report(r.id, DTerminated), r.id);
  }

  lemma SuspendedView(s: State, r: Record)
    requires !r.status.Suspended?
    ensures ViewOf(SuspendRuntime(s, r), r.id)
         == View(Some(r.(status := Suspended, container := if r.kind.Inference? then None else r.container)), {},
                 ReportsOf(s.log, r.id) + [DSuspended])
  {
    ReportsAppend(s.log, Report(r.id, DSuspended), r.id);
  }

  // ------------------------------------------------------------------- the loops

  lemma {:induction false} LeasesOfOthers(cfg: Config, s: State, mine: seq<Lease>, answers: nat -> Answers, i: nat,
                                          d: string)
    requires WellFormed(s.store) && i <= |mine| && forall j | i <= j < |mine| :: mine[j].deployment != d
    ensures var t := LeaseLoop(cfg, s, mine, answers, i).state; WellFormed(t.store) && ViewOf(t, d) == ViewOf(s, d)
    decreases |mine| - i
  {
    if i < |mine| {
      var o := HandleLease(cfg, s, mine[i], answers(i));
      HandleLeaseServes(cfg, s, mine[i], answers(i));
      LeaseStaysWellFormed(cfg, s, mine[i], answers(i));
      ServesOthers(s, o.state, mine[i].deployment, d);
      if o.Done? {
        LeasesOfOthers(cfg, o.state, mine, answers, i + 1, d);
      }
    }
  }

  lemma {:induction false} CleanupOfOthers(s: State, ids: seq<string>, active: set<string>, fleet: set<string>,
                                           dep: string -> DeploymentAnswer, i: nat, d: string)
    requires WellFormed(s.store) && i <= |ids| && d !in ids[i..]
    ensures ViewOf(CleanupLoop(s, ids, active, fleet, dep, i), d) == ViewOf(s, d)
    decreases |ids| - i
  {
    if i < |ids| {
      var t := CleanupOne(s, ids[i], active, fleet, dep(ids[i]));
      assert ids[i..] == [ids[i]] + ids[i + 1..];
      CleanupOneServes(s, ids[i], active, fleet, dep(ids[i]));
      CleanupStaysWellFormed(s, ids[i], active, fleet, dep(ids[i]));
      ServesOthers(s, t, ids[i], d);
      CleanupOfOthers(t, ids, active, fleet, dep, i + 1, d);
    }
  }

  // In the loop over distinct ids only the turn of `d` counts.
  lemma {:induction false} CleanupTurn(s: State, ids: seq<string>, active: set<string>, fleet: set<string>,
                                       dep: string -> DeploymentAnswer, i: nat, d: string, v: View)
    requires WellFormed(s.store) && NoDuplicates(ids) && i <= |ids| && d in ids[i..]
    requires forall x: State | WellFormed(x.store) && ViewOf(x, d) == ViewOf(s, d) ::
               ViewOf(CleanupOne(x, d, active, fleet, dep(d)), d) == v
    ensures ViewOf(CleanupLoop(s, ids, active, fleet, dep, i), d) == v
    decreases |ids| - i
  {
    var t := CleanupOne(s, ids[i], active, fleet, dep(ids[i]));
    assert ids[i..] == [ids[i]] + ids[i + 1..];
    CleanupStaysWellFormed(s, ids[i], active, fleet, dep(ids[i]));
    if ids[i] == d {
      CleanupOfOthers(t, ids, active, fleet, dep, i + 1, d);
    } else {
      CleanupOneServes(s, ids[i], active, fleet, dep(ids[i]));
      ServesOthers(s, t, ids[i], d);
      CleanupTurn(t, ids, active, fleet, dep, i + 1, d, v);
    }
  }

  lemma {:induction false} RecoveryOfOthers(s: State, ids: seq<string>, dep: string -> DeploymentAnswer, i: nat,
                                            d: string)
    requires WellFormed(s.store) && i <= |ids| && d !in ids[i..]
    ensures ViewOf(RecoverLoop(s, ids, dep, i), d) == ViewOf(s, d)
    decreases |ids| - i
  {
    if i < |ids| {
      var t := RecoverOne(s, ids[i], dep(ids[i]));
      assert ids[i..] == [ids[i]] + ids[i + 1..];
      RecoverOneServes(s, ids[i], dep(ids[i]));
      RecoverStaysWellFormed(s, ids[i], dep(ids[i]));
      ServesOthers(s, t, ids[i], d);
      RecoveryOfOthers(t, ids, dep, i + 1, d);
    }
  }

  lemma {:induction false} RecoveryTurn(s: State, ids: seq<string>, dep: string -> DeploymentAnswer, i: nat, d: string,
                                        v: View)
    requires WellFormed(s.store) && NoDuplicates(ids) && i <= |ids| && d in ids[i..]
    requires forall x: State | WellFormed(x.store) && ViewOf(x, d) == ViewOf(s, d) ::
               ViewOf(RecoverOne(x, d, dep(d)), d) == v
    ensures ViewOf(RecoverLoop(s, ids, dep, i), d) == v
    decreases |ids| - i
  {
    var t := RecoverOne(s, ids[i], dep(ids[i]));
    assert ids[i..] == [ids[i]] + ids[i + 1..];
    RecoverStaysWellFormed(s, ids[i], dep(ids[i]));
    if ids[i] == d {
      RecoveryOfOthers(t, ids, dep, i + 1, d);
    } else {
      RecoverOneServes(s, ids[i], dep(ids[i]));
      ServesOthers(s, t, ids[i], d);
      RecoveryTurn(t, ids, dep, i + 1, d, v);
    }
  }
}
