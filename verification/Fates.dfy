/** What becomes of one deployment, spelled out. */
module Fates {
  import opened Common
  import opened Repository
  import opened NodeModel
  import opened Loops
  import opened Exclusivity
  import opened Containers
  import opened Steps
  import opened Runs
  import opened WellFormedSteps
  import opened Suspension
  import opened Views

  // ---------------------------------------------------------------------- recovery

  function RecoveredView(v: View, answer: DeploymentAnswer): View {
    match v.record
    case None => v
    case Some(r) =>
      if r.status.Failed? || r.status.Terminated? then v
      else
        match answer
        case Unreachable => v
        case NotFound => View(Some(r.(status := Terminated)), {}, v.told)
        case Exists(state) =>
          match state
          case DReady => v
          case DStarting => v
          case DScheduled => v
          case DPulling => v
          case DDraining => v
          case DSuspended => v
          case DPending => View(Some(r.(status := Terminated)), {}, v.told)
          case DFailed => View(Some(r.(status := Terminated)), {}, v.told + [DTerminated])
          case DTerminated => View(Some(r.(status := Terminated)), {}, v.told + [DTerminated])
  }

  lemma EndedByRecovery(s: State, r: Record, answer: DeploymentAnswer, report: bool)
    requires Get(s.store, r.id) == Some(r) && !r.status.Failed? && !r.status.Terminated?
    requires RecoverOne(s, r.id, answer) == TerminateRuntime(s, r, report)
    requires RecoveredView(ViewOf(s, r.id), answer)
          == View(Some(r.(status := Terminated)), {}, ReportsOf(s.log, r.id) + if report then [DTerminated] else [])
    ensures ViewOf(RecoverOne(s, r.id, answer), r.id) == RecoveredView(ViewOf(s, r.id), answer)
  {
    TerminatedView(s, r, report);
  }

  lemma RecoveredLive(s: State, d: string, answer: DeploymentAnswer)
    requires WellFormed(s.store) && Get(s.store, d).Some?
    requires !Get(s.store, d).value.status.Failed? && !Get(s.store, d).value.status.Terminated?
    ensures ViewOf(RecoverOne(s, d, answer), d) == RecoveredView(ViewOf(s, d), answer)
  {
    var r := Get(s.store, d).value;
    assert r.id == d;
    match answer
    case Unreachable =>
    case NotFound => EndedByRecovery(s, r, answer, false);
    case Exists(state) =>
      match state
      case DPending => EndedByRecovery(s, r, answer, false);
      case DFailed => EndedByRecovery(s, r, answer, true);
      case DTerminated => EndedByRecovery(s, r, answer, true);
      case _ => assert RecoverOne(s, d, answer) == s;
  }

  lemma RecoveredOnce(s: State, d: string, answer: DeploymentAnswer)
    requires WellFormed(s.store)
    ensures ViewOf(RecoverOne(s, d, answer), d) == RecoveredView(ViewOf(s, d), answer)
  {
    match Get(s.store, d)
    case None =>
    case Some(r) =>
      if !r.status.Failed? && !r.status.Terminated? {
        RecoveredLive(s, d, answer);
      }
  }

  // Recovery keeps a live record, its devices and its reports if and only if the
  // control plane is unreachable or calls the deployment ready, starting, scheduled,
  // pulling, draining or suspended; it reports only what is failed or terminated there.
  lemma RecoveryFate(s: State, dep: string -> DeploymentAnswer, d: string)
    requires WellFormed(s.store)
    ensures ViewOf(Recover(s, dep), d) == RecoveredView(ViewOf(s, d), dep(d))
  {
    var v := RecoveredView(ViewOf(s, d), dep(d));
    assert s.store.order[0..] == s.store.order;
    if d in s.store.order {
      forall x: State | WellFormed(x.store) && ViewOf(x, d) == ViewOf(s, d)
        ensures ViewOf(RecoverOne(x, d, dep(d)), d) == v
      {
        RecoveredOnce(x, d, dep(d));
      }
      RecoveryTurn(s, s.store.order, dep, 0, d, v);
    } else {
      RecoveryOfOthers(s, s.store.order, dep, 0, d);
    }
  }

  ghost predicate SameContainers(dk: Docker, dk': Docker, d: string) {
    forall c | c in dk.containers && dk.containers[c].owner == d :: Lookup(dk'.containers, c) == Some(dk.containers[c])
  }

  lemma DeadHaveNoContainer(s: State, d: string)
    requires DockerOk(s)
    requires var o := Get(s.store, d); o.None? || o.value.status.Failed? || o.value.status.Terminated?
    ensures NoContainer(s.docker, d)
  {
    forall c | c in s.docker.containers ensures s.docker.containers[c].owner != d {
      assert ContainerOk(s, c);
    }
  }

  ghost predicate ContainersKept(cfg: Config, s: State, x: State, d: string) {
    NodeOk(cfg, x) && Get(x.store, d) == Get(s.store, d) && SameContainers(s.docker, x.docker, d)
  }

  lemma RecoverOneKeepsContainers(cfg: Config, s: State, x: State, e: string, answer: DeploymentAnswer, d: string)
    requires ContainersKept(cfg, s, x, d)
    requires e == d ==> RecoverOne(x, e, answer) == x
    ensures ContainersKept(cfg, s, RecoverOne(x, e, answer), d)
  {
    if e != d {
      RecoverOneKeeps(cfg, x, e, answer);
      RecoverOneKeepsDocker(cfg, x, e, answer);
      RecoverOneServes(x, e, answer);
      RecoverOneSpares(cfg, x, e, answer);
    }
  }

  // Whether a live record is kept does not depend on anything else.
  lemma KeptIsUntouched(x: State, d: string, answer: DeploymentAnswer, r: Record)
    requires Get(x.store, d) == Some(r) && !r.status.Failed? && !r.status.Terminated?
    requires RecoveredView(View(Some(r), {}, []), answer) == View(Some(r), {}, [])
    ensures RecoverOne(x, d, answer) == x
  {}

  lemma RecoveryKeepsContainers(cfg: Config, s: State, dep: string -> DeploymentAnswer, d: string)
    requires NodeOk(cfg, s) && RecoveredView(ViewOf(s, d), dep(d)) == ViewOf(s, d)
    ensures SameContainers(s.docker, Recover(s, dep).docker, d)
  {
    if Get(s.store, d).Some? && !Get(s.store, d).value.status.Failed? && !Get(s.store, d).value.status.Terminated? {
      var P := (x: State) => ContainersKept(cfg, s, x, d);
      forall x: State, e | P(x) ensures P(RecoverOne(x, e, dep(e))) {
        if e == d {
          KeptIsUntouched(x, d, dep(d), Get(s.store, d).value);
        }
        RecoverOneKeepsContainers(cfg, s, x, e, dep(e), d);
      }
      RecoverLoopKeeps(s, s.store.order, dep, 0, P);
    } else {
      DeadHaveNoContainer(s, d);
    }
  }

  // Its containers stay exactly when the rest does; otherwise none is left.
  lemma RecoveryContainerFate(cfg: Config, s: State, dep: string -> DeploymentAnswer, d: string)
    requires NodeOk(cfg, s)
    ensures if RecoveredView(ViewOf(s, d), dep(d)) == ViewOf(s, d)
            then SameContainers(s.docker, Recover(s, dep).docker, d)
            else NoContainer(Recover(s, dep).docker, d)
  {
    if RecoveredView(ViewOf(s, d), dep(d)) == ViewOf(s, d) {
      RecoveryKeepsContainers(cfg, s, dep, d);
    } else {
      RecoveryFate(s, dep, d);
      RecoverKeepsNode(cfg, s, dep);
      DeadHaveNoContainer(Recover(s, dep), d);
    }
  }

  // ------------------------------------------------------------------------- a pass

  // No lookup or preparation raises what the resume does not catch.
  ghost predicate NothingEscapes(inp: PassInput) {
    forall j: nat :: !inp.answers(j).preparation.UnexpectedError?
  }

  lemma LeaseIsDone(cfg: Config, s: State, l: Lease, a: Answers)
    requires !a.preparation.UnexpectedError?
    ensures HandleLease(cfg, s, l, a).Done?
  {}

  lemma {:induction false} LoopIsDone(cfg: Config, s: State, mine: seq<Lease>, answers: nat -> Answers, i: nat)
    requires i <= |mine| && forall j: nat :: !answers(j).preparation.UnexpectedError?
    ensures LeaseLoop(cfg, s, mine, answers, i).Done?
    decreases |mine| - i
  {
    if i < |mine| {
      assert !answers(i).preparation.UnexpectedError?;
      LeaseIsDone(cfg, s, mine[i], answers(i));
      LoopIsDone(cfg, HandleLease(cfg, s, mine[i], answers(i)).state, mine, answers, i + 1);
    }
  }

  ghost predicate LeasedSomewhere(inp: PassInput, d: string) {
    exists l :: l in Leases(inp) && l.deployment == d
  }

  // No lease of `d` names this node, or none at all.
  ghost predicate OnlyElsewhere(cfg: Config, inp: PassInput, d: string) {
    forall l | l in Leases(inp) && l.deployment == d :: l.nodeId != "" && l.nodeId != cfg.nodeId
  }

  // What the cleanup makes of it: a live record is ended, and reported only when
  // nobody leases it any more; a suspended one goes only when it is terminated.
  function CleanedView(v: View, leased: bool, answer: DeploymentAnswer): View {
    match v.record
    case None => v
    case Some(r) =>
      match r.status
      case Terminated => v
      case Suspended => if answer == Exists(DTerminated) then View(None, {}, v.told + [DTerminated]) else v
      case _ => View(Some(r.(status := Terminated)), {}, v.told + if leased then [] else [DTerminated])
  }

  lemma SuspendedCleanedOnce(s: State, r: Record, active: set<string>, fleet: set<string>, answer: DeploymentAnswer)
    requires Get(s.store, r.id) == Some(r) && r.id !in active && r.status.Suspended?
    ensures ViewOf(CleanupOne(s, r.id, active, fleet, answer), r.id)
         == CleanedView(ViewOf(s, r.id), r.id in fleet, answer)
  {
    TerminatedView(s, r, true);
  }

  lemma LiveCleanedOnce(s: State, r: Record, active: set<string>, fleet: set<string>, answer: DeploymentAnswer)
    requires Get(s.store, r.id) == Some(r) && r.id !in active && !r.status.Suspended? && !r.status.Terminated?
    ensures ViewOf(CleanupOne(s, r.id, active, fleet, answer), r.id)
         == CleanedView(ViewOf(s, r.id), r.id in fleet, answer)
  {
    TerminatedView(s, r, r.id !in fleet);
    assert CleanupOne(s, r.id, active, fleet, answer) == TerminateRuntime(s, r, r.id !in fleet);
  }

  lemma CleanedOnce(s: State, d: string, active: set<string>, fleet: set<string>, answer: DeploymentAnswer)
    requires WellFormed(s.store) && d !in active
    ensures ViewOf(CleanupOne(s, d, active, fleet, answer), d) == CleanedView(ViewOf(s, d), d in fleet, answer)
  {
    match Get(s.store, d)
    case None =>
    case Some(r) =>
      assert r.id == d;
      if r.status.Suspended? {
        SuspendedCleanedOnce(s, r, active, fleet, answer);
      } else if !r.status.Terminated? {
        LiveCleanedOnce(s, r, active, fleet, answer);
      }
  }

  lemma CleanupViewFate(cfg: Config, s: State, inp: PassInput, d: string)
    requires WellFormed(s.store) && OnlyElsewhere(cfg, inp, d)
    ensures ViewOf(Cleanup(cfg, s, inp), d) == CleanedView(ViewOf(s, d), LeasedSomewhere(inp, d), inp.deployment(d))
  {
    var active, fleet := Deployments(Mine(cfg, Leases(inp))), Deployments(Leases(inp));
    var v := CleanedView(ViewOf(s, d), d in fleet, inp.deployment(d));
    NotMine(cfg, inp, d);
    assert s.store.order[0..] == s.store.order;
    if d in s.store.order {
      forall x: State | WellFormed(x.store) && ViewOf(x, d) == ViewOf(s, d)
        ensures ViewOf(CleanupOne(x, d, active, fleet, inp.deployment(d)), d) == v
      {
        CleanedOnce(x, d, active, fleet, inp.deployment(d));
      }
      CleanupTurn(s, s.store.order, active, fleet, inp.deployment, 0, d, v);
    } else {
      CleanupOfOthers(s, s.store.order, active, fleet, inp.deployment, 0, d);
    }
  }

  lemma NotMine(cfg: Config, inp: PassInput, d: string)
    requires OnlyElsewhere(cfg, inp, d)
    ensures d !in Deployments(Mine(cfg, Leases(inp)))
    ensures d in Deployments(Leases(inp)) <==> LeasedSomewhere(inp, d)
  {}

  // Leases of other nodes are none of this one's business: nothing is started, held or
  // said for them, and what is left of the deployment here is cleaned up. A deployment
  // that nobody leases is reported terminated.
  lemma LeasedElsewhereFate(cfg: Config, s: State, inp: PassInput, d: string)
    requires WellFormed(s.store) && OnlyElsewhere(cfg, inp, d)
    ensures var cleaned := CleanedView(ViewOf(s, d), LeasedSomewhere(inp, d), inp.deployment(d));
            var after := ViewOf(Reconcile(cfg, s, inp), d);
            after == cleaned || (!NothingEscapes(inp) && after == ViewOf(s, d))
  {
    var mine := Mine(cfg, Leases(inp));
    NotMine(cfg, inp, d);
    forall j | 0 <= j < |mine| ensures mine[j].deployment != d {
      assert mine[j] in mine;
    }
    LeasesOfOthers(cfg, s, mine, inp.answers, 0, d);
    var o := LeaseLoop(cfg, s, mine, inp.answers, 0);
    if o.Done? {
      CleanupViewFate(cfg, o.state, inp, d);
    } else if NothingEscapes(inp) {
      LoopIsDone(cfg, s, mine, inp.answers, 0);
    }
  }

  // And no container either, where there was none.
  lemma LeasedElsewhereRunsNothing(cfg: Config, s: State, inp: PassInput, d: string)
    requires NodeOk(cfg, s) && OnlyElsewhere(cfg, inp, d) && Get(s.store, d).None?
    ensures var s' := Reconcile(cfg, s, inp);
            ViewOf(s', d) == View(None, {}, ReportsOf(s.log, d)) && NoContainer(s'.docker, d)
  {
    assert Matches(s, d);
    LeasedElsewhereFate(cfg, s, inp, d);
    ReconcileKeepsNode(cfg, s, inp);
    DeadHaveNoContainer(Reconcile(cfg, s, inp), d);
  }

  // ---------------------------------------------------------------- suspension orders

  // Some lease of `d` is this node's, and all of those are marked suspended.
  ghost predicate OrderedToSuspend(cfg: Config, inp: PassInput, d: string) {
    && (exists l :: l in Leases(inp) && l.deployment == d && (l.nodeId == "" || l.nodeId == cfg.nodeId))
    && (forall l | l in Leases(inp) && l.deployment == d && (l.nodeId == "" || l.nodeId == cfg.nodeId) :: l.suspended)
  }

  function StoppedView(v: View): View {
    match v.record
    case None => v
    case Some(r) =>
      if r.status.Ready? || r.status.Starting? then
        View(Some(r.(status := Suspended, container := if r.kind.Inference? then None else r.container)), {},
             v.told + [DSuspended])
      else v
  }

  lemma StoppedOnce(cfg: Config, s: State, l: Lease, a: Answers)
    requires WellFormed(s.store) && l.suspended
    ensures ViewOf(HandleLease(cfg, s, l, a).state, l.deployment) == StoppedView(ViewOf(s, l.deployment))
  {
    if Get(s.store, l.deployment).Some? {
      var r := Get(s.store, l.deployment).value;
      assert r.id == l.deployment;
      if !r.status.Suspended? {
        SuspendedView(s, r);
      }
    }
  }

  lemma OneMoreStops(cfg: Config, s: State, l: Lease, a: Answers, d: string)
    requires WellFormed(s.store) && (l.deployment == d ==> l.suspended)
    ensures var t := HandleLease(cfg, s, l, a).state;
            WellFormed(t.store) && ViewOf(t, d) == if l.deployment == d then StoppedView(ViewOf(s, d)) else ViewOf(s, d)
  {
    LeaseStaysWellFormed(cfg, s, l, a);
    if l.deployment == d {
      StoppedOnce(cfg, s, l, a);
    } else {
      HandleLeaseServes(cfg, s, l, a);
      ServesOthers(s, HandleLease(cfg, s, l, a).state, l.deployment, d);
    }
  }

  // From `v` the loop may have reached `w`, and has if it went past a lease of `d`.
  ghost predicate StopsBy(v: View, w: View, past: bool) {
    w == StoppedView(v) || (!past && w == v)
  }

  lemma StopsInTurn(v: View, w: View, u: View, here: bool, later: bool)
    requires w == (if here then StoppedView(v) else v) && StopsBy(w, u, later)
    ensures StopsBy(v, u, here || later)
  {}

  ghost predicate LeasedFrom(mine: seq<Lease>, i: nat, d: string) {
    exists j :: i <= j < |mine| && mine[j].deployment == d
  }

  lemma {:induction false} LoopStops(cfg: Config, s: State, mine: seq<Lease>, answers: nat -> Answers, i: nat,
                                     d: string)
    requires WellFormed(s.store) && i <= |mine|
    requires forall j | i <= j < |mine| && mine[j].deployment == d :: mine[j].suspended
    ensures var o := LeaseLoop(cfg, s, mine, answers, i);
            && WellFormed(o.state.store)
            && StopsBy(ViewOf(s, d), ViewOf(o.state, d), o.Done? && LeasedFrom(mine, i, d))
    decreases |mine| - i
  {
    if i < |mine| {
      var o := HandleLease(cfg, s, mine[i], answers(i));
      var here := mine[i].deployment == d;
      OneMoreStops(cfg, s, mine[i], answers(i), d);
      assert LeasedFrom(mine, i, d) <==> here || LeasedFrom(mine, i + 1, d);
      if o.Done? {
        LoopStops(cfg, o.state, mine, answers, i + 1, d);
        var u := LeaseLoop(cfg, o.state, mine, answers, i + 1);
        StopsInTurn(ViewOf(s, d), ViewOf(o.state, d), ViewOf(u.state, d), here, u.Done? && LeasedFrom(mine, i + 1, d));
      }
    }
  }

  lemma LeasedIsSpared(s: State, ids: seq<string>, active: set<string>, fleet: set<string>,
                       dep: string -> DeploymentAnswer, d: string)
    requires WellFormed(s.store) && d in active
    ensures ViewOf(CleanupLoop(s, ids, active, fleet, dep, 0), d) == ViewOf(s, d)
  {
    var P := (x: State) => WellFormed(x.store) && ViewOf(x, d) == ViewOf(s, d);
    forall x: State, e | P(x) ensures P(CleanupOne(x, e, active, fleet, dep(e))) {
      CleanupStaysWellFormed(x, e, active, fleet, dep(e));
      if e != d {
        CleanupOneServes(x, e, active, fleet, dep(e));
        ServesOthers(x, CleanupOne(x, e, active, fleet, dep(e)), e, d);
      }
    }
    CleanupLoopKeeps(s, ids, active, fleet, dep, 0, P);
  }

  // An order to suspend is carried out: a ready or starting runtime is suspended and
  // gives up its devices, the control plane is told so once, and anything else is left
  // as it is.
  lemma SuspensionFate(cfg: Config, s: State, inp: PassInput, d: string)
    requires WellFormed(s.store) && OrderedToSuspend(cfg, inp, d)
    ensures var after := ViewOf(Reconcile(cfg, s, inp), d);
            after == StoppedView(ViewOf(s, d)) || (!NothingEscapes(inp) && after == ViewOf(s, d))
  {
    var mine := Mine(cfg, Leases(inp));
    var l :| l in Leases(inp) && l.deployment == d && (l.nodeId == "" || l.nodeId == cfg.nodeId);
    assert l in mine;
    forall j | 0 <= j < |mine| && mine[j].deployment == d ensures mine[j].suspended {
      assert mine[j] in mine;
    }
    LoopStops(cfg, s, mine, inp.answers, 0, d);
    assert LeasedFrom(mine, 0, d);
    var o := LeaseLoop(cfg, s, mine, inp.answers, 0);
    if o.Done? {
      LeasedIsSpared(o.state, o.state.store.order, Deployments(mine), Deployments(Leases(inp)), inp.deployment, d);
    } else if NothingEscapes(inp) {
      LoopIsDone(cfg, s, mine, inp.answers, 0);
    }
  }

  // ------------------------------------------------------------------------ on request

  // A requested termination ends the record, its devices and its container, and is
  // reported, whatever state it was in; an unknown deployment changes nothing.
  lemma RequestedTermination(cfg: Config, s: State, d: string)
    requires WellFormed(s.store)
    ensures UserTerminate(s, d) == Step(cfg, s, UserTermination(d))
    ensures var s' := UserTerminate(s, d);
            match Get(s.store, d)
            case None => s' == s
            case Some(r) =>
              && ViewOf(s', d) == View(Some(r.(status := Terminated)), {}, ReportsOf(s.log, d) + [DTerminated])
              && (DockerOk(s) ==> NoContainer(s'.docker, d))
  {
    if Get(s.store, d).Some? {
      var r := Get(s.store, d).value;
      assert r.id == d;
      TerminatedView(s, r, true);
      if DockerOk(s) {
        TerminateKeepsDocker(s, r, true);
      }
    }
  }
}
