/** What each event of a run does: the order of a pass and of a recovery, and what a
    restart and a crash leave. */
module Passes {
  import opened Common
  import opened Repository
  import opened NodeModel
  import opened LeaseFilter
  import opened Exclusivity
  import opened Runs

  // After the first n turns; an exception that escapes from one is the end of it.
  function AfterTurns(turn: (State, nat) -> Outcome, s: State, n: nat): Outcome {
    if n == 0 then Done(s)
    else
      match AfterTurns(turn, s, n - 1)
      case Crashed(t) => Crashed(t)
      case Done(t) => turn(t, n - 1)
  }

  // The k-th turn serves the k-th lease with its own answers.
  function Turn(cfg: Config, mine: seq<Lease>, answers: nat -> Answers): (State, nat) -> Outcome {
    (t: State, k: nat) => if k < |mine| then HandleLease(cfg, t, mine[k], answers(k)) else Done(t)
  }

  function AfterCleanups(s: State, ids: seq<string>, active: set<string>, fleet: set<string>,
                         dep: string -> DeploymentAnswer, n: nat): State
    requires n <= |ids|
  {
    if n == 0 then s
    else CleanupOne(AfterCleanups(s, ids, active, fleet, dep, n - 1), ids[n - 1], active, fleet, dep(ids[n - 1]))
  }

  function AfterRecoveries(s: State, ids: seq<string>, dep: string -> DeploymentAnswer, n: nat): State
    requires n <= |ids|
  {
    if n == 0 then s else RecoverOne(AfterRecoveries(s, ids, dep, n - 1), ids[n - 1], dep(ids[n - 1]))
  }

  lemma {:induction false} CrashIsTheEnd(turn: (State, nat) -> Outcome, s: State, i: nat, n: nat)
    requires i <= n && AfterTurns(turn, s, i).Crashed?
    ensures AfterTurns(turn, s, n) == AfterTurns(turn, s, i)
    decreases n - i
  {
    if i < n {
      CrashIsTheEnd(turn, s, i, n - 1);
    }
  }

  lemma {:induction false} LoopGoesOn(cfg: Config, s: State, mine: seq<Lease>, answers: nat -> Answers, i: nat,
                                      t: State)
    requires i <= |mine| && AfterTurns(Turn(cfg, mine, answers), s, i) == Done(t)
    ensures LeaseLoop(cfg, t, mine, answers, i) == AfterTurns(Turn(cfg, mine, answers), s, |mine|)
    decreases |mine| - i
  {
    if i < |mine| {
      var o := HandleLease(cfg, t, mine[i], answers(i));
      assert AfterTurns(Turn(cfg, mine, answers), s, i + 1) == o;
      if o.Done? {
        LoopGoesOn(cfg, s, mine, answers, i + 1, o.state);
      } else {
        CrashIsTheEnd(Turn(cfg, mine, answers), s, i + 1, |mine|);
      }
    }
  }

  lemma {:induction false} CleanupGoesOn(s: State, ids: seq<string>, active: set<string>, fleet: set<string>,
                                         dep: string -> DeploymentAnswer, i: nat)
    requires i <= |ids|
    ensures CleanupLoop(AfterCleanups(s, ids, active, fleet, dep, i), ids, active, fleet, dep, i)
         == AfterCleanups(s, ids, active, fleet, dep, |ids|)
    decreases |ids| - i
  {
    if i < |ids| {
      CleanupGoesOn(s, ids, active, fleet, dep, i + 1);
    }
  }

  lemma {:induction false} RecoveryGoesOn(s: State, ids: seq<string>, dep: string -> DeploymentAnswer, i: nat)
    requires i <= |ids|
    ensures RecoverLoop(AfterRecoveries(s, ids, dep, i), ids, dep, i) == AfterRecoveries(s, ids, dep, |ids|)
    decreases |ids| - i
  {
    if i < |ids| {
      RecoveryGoesOn(s, ids, dep, i + 1);
    }
  }

  // A pass serves the leases of this node and those that name none, each once and in
  // turn, and then, unless an exception escaped, goes over the records as they then
  // are, in the order of the dict.
  lemma PassIsInTurn(cfg: Config, s: State, inp: PassInput) returns (mine: seq<Lease>, at: seq<nat>)
    ensures Selects(cfg.nodeId, Leases(inp), mine, at)
    ensures Step(cfg, s, ReconcilePass(inp)) == Reconcile(cfg, s, inp)
    ensures Reconcile(cfg, s, inp) ==
              match AfterTurns(Turn(cfg, mine, inp.answers), s, |mine|)
              case Crashed(t) => t
              case Done(t) =>
                AfterCleanups(t, t.store.order, set l | l in mine :: l.deployment,
                              set l | l in Leases(inp) :: l.deployment, inp.deployment, |t.store.order|)
  {
    mine := Mine(cfg, Leases(inp));
    at := MineIsExact(cfg, Leases(inp));
    LoopGoesOn(cfg, s, mine, inp.answers, 0, s);
    match AfterTurns(Turn(cfg, mine, inp.answers), s, |mine|)
    case Crashed(t) =>
    case Done(t) => CleanupGoesOn(t, t.store.order, Deployments(mine), Deployments(Leases(inp)), inp.deployment, 0);
  }

  // Recovery goes over the records that it finds.
  lemma RecoveryIsInTurn(cfg: Config, s: State, dep: string -> DeploymentAnswer)
    ensures Step(cfg, s, RecoveryPass(dep)) == Recover(s, dep)
    ensures Recover(s, dep) == AfterRecoveries(s, s.store.order, dep, |s.store.order|)
  {
    RecoveryGoesOn(s, s.store.order, dep, 0);
  }

  // --------------------------------------------------------------- restart and crash

  // The allocator holds what the records say, and nothing else.
  ghost predicate Reloaded(s: State) {
    forall d :: Lookup(s.alloc, d) == RehydratedEntry(s.store, d)
  }

  lemma RestartReloads(s: State, disk: Store)
    requires WellFormed(disk)
    ensures Reloaded(Restart(s, disk))
  {
    forall d ensures Lookup(Restart(s, disk).alloc, d) == RehydratedEntry(disk, d) {
      RehydratedIsRecorded(disk, d);
    }
  }

  // A heartbeat changes nothing, and a restart between passes only rebuilds the allocator.
  lemma QuietRestartIsExact(cfg: Config, s: State, busy: set<int>)
    requires WellFormed(s.store)
    ensures Step(cfg, s, HeartbeatTick(busy)) == s
    ensures var c := Step(cfg, s, QuietRestart);
            && c.store == s.store && c.docker == s.docker && c.log == s.log && c.saves == s.saves
            && Reloaded(c)
  {
    RestartReloads(s, s.store);
  }

  // A run is its events one after another.
  lemma {:induction false} RunGoesOn(cfg: Config, s: State, events: seq<Event>, e: Event)
    ensures Run(cfg, s, []) == s
    ensures Run(cfg, s, events + [e]) == Step(cfg, Run(cfg, s, events), e)
    decreases |events|
  {
    if events == [] {
      assert ([e])[1..] == [];
    } else {
      RunGoesOn(cfg, Step(cfg, s, events[0]), events[1..], e);
      assert (events + [e])[1..] == events[1..] + [e];
    }
  }

  // A crash on the way from s to s', after k files and n reports in all: the last of
  // those files is what comes up, the reports are those sent by then, and containers
  // of the world are there that docker had issued an id for.
  ghost predicate LeftBehind(s: State, s': State, k: nat, world: Docker, n: nat, c: State) {
    && (if |s.saves| < k <= |s'.saves| then c.store == s'.saves[k - 1] && c.saves == s'.saves[..k]
        else c.store == s.store && c.saves == s.saves)
    && (if |s.log| < n <= |s'.log| then c.log == s'.log[..n] else c.log == s.log)
    && c.docker.nextId == s'.docker.nextId
    && (forall id :: id in c.docker.containers <==> id in world.containers && id < s'.docker.nextId)
    && (forall id | id in c.docker.containers :: c.docker.containers[id] == world.containers[id])
    && Reloaded(c)
  }

  lemma CrashLeavesBehind(cfg: Config, s: State, s': State, k: nat, world: Docker, n: nat)
    requires s.saves <= s'.saves && s.log <= s'.log && WellFormed(s.store) && SavesOk(cfg, s'.saves)
    ensures LeftBehind(s, s', k, world, n, CrashBetween(s, s', k, world, n))
  {
    RestartReloads(CrashBetween(s, s', k, world, n), CrashBetween(s, s', k, world, n).store);
  }

  lemma NextCrashIsExact(cfg: Config, s: State, inp: PassInput, dep: string -> DeploymentAnswer, k: nat, world: Docker,
                         n: nat)
    requires Exclusive(cfg, s)
    ensures LeftBehind(s, Step(cfg, s, ReconcilePass(inp)), k, world, n,
                       Step(cfg, s, CrashInReconcile(inp, k, world, n)))
    ensures LeftBehind(s, Step(cfg, s, RecoveryPass(dep)), k, world, n,
                       Step(cfg, s, CrashInRecovery(dep, k, world, n)))
  {
    PassOnlyAppends(cfg, s, inp);
    ReconcileKeepsExclusive(cfg, s, inp);
    CrashLeavesBehind(cfg, s, Reconcile(cfg, s, inp), k, world, n);
    RecoveryOnlyAppends(s, dep);
    RecoverKeepsExclusive(cfg, s, dep);
    CrashLeavesBehind(cfg, s, Recover(s, dep), k, world, n);
  }

  // Killed in the middle of its next pass or recovery, any run leaves what that one had
  // written by then.
  lemma CrashIsExact(cfg: Config, s: State, events: seq<Event>, inp: PassInput, dep: string -> DeploymentAnswer,
                     k: nat, world: Docker, n: nat)
    requires Exclusive(cfg, s)
    ensures LeftBehind(Run(cfg, s, events), Run(cfg, s, events + [ReconcilePass(inp)]), k, world, n,
                       Run(cfg, s, events + [CrashInReconcile(inp, k, world, n)]))
    ensures LeftBehind(Run(cfg, s, events), Run(cfg, s, events + [RecoveryPass(dep)]), k, world, n,
                       Run(cfg, s, events + [CrashInRecovery(dep, k, world, n)]))
  {
    EveryRunIsExclusive(cfg, s, events);
    RunGoesOn(cfg, s, events, ReconcilePass(inp));
    RunGoesOn(cfg, s, events, CrashInReconcile(inp, k, world, n));
    RunGoesOn(cfg, s, events, RecoveryPass(dep));
    RunGoesOn(cfg, s, events, CrashInRecovery(dep, k, world, n));
    NextCrashIsExact(cfg, Run(cfg, s, events), inp, dep, k, world, n);
  }
}
