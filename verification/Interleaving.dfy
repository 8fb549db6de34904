/** Threads scheduled operation by operation: the reconcile lock makes every schedule
    serial. */
module Interleaving {
  import opened Common
  import opened GpuAllocation
  import opened Repository
  import opened NodeModel
  import opened Containers
  import opened Isolation
  import opened MicroSteps

  // Beating: a heartbeat that has read the records, seen the busy devices, and not
  // yet read the allocator.
  datatype Thread = Idle | Holding(job: Job, agenda: Agenda) | Beating(reserved: nat, busy: set<int>)

  datatype Action = Trigger(t: nat, job: Job) | Beat(t: nat, busy: set<int>) | Advance(t: nat)

  // `won` lists the jobs that got the lock, in that order; `advertised` what the
  // heartbeats sent.
  datatype World = World(shared: State, locked: bool, threads: map<nat, Thread>, won: seq<Job>, advertised: seq<nat>)

  function ThreadOf(w: World, t: nat): Thread {
    if t in w.threads then w.threads[t] else Idle
  }

  // One scheduling step. A trigger that finds the lock taken returns at once.
  function Act(cfg: Config, w: World, action: Action): World {
    match action
    case Trigger(t, job) =>
      if ThreadOf(w, t) != Idle || w.locked then w
      else w.(locked := true, threads := w.threads[t := Holding(job, Begin(job))], won := w.won + [job])
    case Beat(t, busy) =>
      if ThreadOf(w, t) != Idle then w
      else w.(threads := w.threads[t := Beating(ReservedLoop(Snapshot(w.shared.store)), busy)])
    case Advance(t) =>
      match ThreadOf(w, t)
      case Idle => w
      case Beating(reserved, busy) =>
        var available := Max(0, cfg.totalGpus - reserved - |Foreign(w.shared.alloc, busy)|);
        w.(threads := w.threads[t := Idle], advertised := w.advertised + [available])
      case Holding(job, agenda) =>
        if agenda.Empty? then w.(locked := false, threads := w.threads[t := Idle])
        else
          var p := Micro(cfg, job, w.shared, agenda.task, agenda.rest);
          w.(shared := p.state, threads := w.threads[t := Holding(job, p.agenda)])
  }

  function Schedule(cfg: Config, w: World, actions: seq<Action>): World {
    if actions == [] then w else Act(cfg, Schedule(cfg, w, actions[..|actions| - 1]), actions[|actions| - 1])
  }

  // The jobs one after another, each run to its end.
  function Serial(cfg: Config, s: State, jobs: seq<Job>): State {
    if jobs == [] then s else MicroSteps.Perform(cfg, jobs[|jobs| - 1], Serial(cfg, s, jobs[..|jobs| - 1]))
  }

  function Quiet(s: State): World {
    World(s, false, map[], [], [])
  }

  ghost predicate HoldsAlone(cfg: Config, strict: bool, s: State, w: World, t: nat) {
    && ThreadOf(w, t).Holding?
    && (forall u: nat | u != t :: !ThreadOf(w, u).Holding?)
    && Leads(cfg, ThreadOf(w, t).job, strict, w.shared, ThreadOf(w, t).agenda, Serial(cfg, s, w.won), Empty)
  }

  // What every schedule keeps: either nobody is in the critical section and the
  // state is the serial one, or exactly one thread is, on its way to it.
  ghost predicate OnItsWay(cfg: Config, strict: bool, s: State, w: World) {
    if w.locked then exists t: nat :: HoldsAlone(cfg, strict, s, w, t)
    else (forall u: nat :: !ThreadOf(w, u).Holding?) && w.shared == Serial(cfg, s, w.won)
  }

  lemma {:induction false} SerialStaysWellFormed(cfg: Config, s: State, jobs: seq<Job>)
    requires WellFormed(s.store)
    ensures WellFormed(Serial(cfg, s, jobs).store)
  {
    if jobs != [] {
      SerialStaysWellFormed(cfg, s, jobs[..|jobs| - 1]);
      PerformStaysWellFormed(cfg, jobs[|jobs| - 1], Serial(cfg, s, jobs[..|jobs| - 1]));
    }
  }

  lemma OthersWait(cfg: Config, w: World, action: Action)
    ensures forall u: nat | u != action.t :: ThreadOf(Act(cfg, w, action), u) == ThreadOf(w, u)
  {}

  // Run to the end, the operations of a pass compute that pass.
  lemma PassRuns(cfg: Config, job: Job, strict: bool, s: State)
    requires strict ==> NodeOk(cfg, s)
    requires WellFormed(s.store)
    ensures Leads(cfg, job, strict, s, Begin(job), MicroSteps.Perform(cfg, job, s), Empty)
  {
    FineWhenSound(cfg, strict, s);
    match job
    case ReconcileJob(inp) => LeasesRun(cfg, job, strict, s, 0);
    case RecoveryJob(dep) =>
      var rs := Snapshot(s.store);
      SnapshotHolds(s.store, 0);
      assert Ids(rs) == s.store.order;
      RecoveringRuns(cfg, job, strict, s, rs, 0, Empty);
      Onward(cfg, job, strict, s, Begin(job), Recover(s, dep), Empty);
  }

  lemma WinnerStarts(cfg: Config, strict: bool, s: State, w: World, t: nat, job: Job)
    requires WellFormed(s.store) && (strict ==> NodeOk(cfg, s))
    requires OnItsWay(cfg, strict, s, w) && !w.locked && ThreadOf(w, t).Idle?
    ensures OnItsWay(cfg, strict, s, Act(cfg, w, Trigger(t, job)))
  {
    var w' := Act(cfg, w, Trigger(t, job));
    OthersWait(cfg, w, Trigger(t, job));
    SerialStaysWellFormed(cfg, s, w.won);
    if strict {
      SerialKeepsNode(cfg, s, w.won);
    }
    PassRuns(cfg, job, strict, w.shared);
    assert w'.won[..|w'.won| - 1] == w.won;
    assert HoldsAlone(cfg, strict, s, w', t);
  }

  lemma OneOff(cfg: Config, job: Job, strict: bool, s: State, agenda: Agenda, end: State)
    requires agenda.Then? && Leads(cfg, job, strict, s, agenda, end, Empty)
    ensures var p := Micro(cfg, job, s, agenda.task, agenda.rest);
            Leads(cfg, job, strict, p.state, p.agenda, end, Empty)
  {
    var n: nat :| After(cfg, job, n, Progress(s, agenda)) == Progress(end, Empty)
                  && FineUpTo(cfg, job, strict, n, Progress(s, agenda));
    var p := Micro(cfg, job, s, agenda.task, agenda.rest);
    var q := Progress(p.state, p.agenda);
    forall m: nat | m <= n - 1 ensures Fine(strict, After(cfg, job, m, q).state) {
      assert After(cfg, job, m + 1, Progress(s, agenda)) == After(cfg, job, m, q);
    }
    assert After(cfg, job, n - 1, q) == Progress(end, Empty) && FineUpTo(cfg, job, strict, n - 1, q);
  }

  lemma EndsWhenEmpty(cfg: Config, job: Job, strict: bool, s: State, end: State)
    requires Leads(cfg, job, strict, s, Empty, end, Empty)
    ensures s == end
  {}

  lemma HolderAdvances(cfg: Config, strict: bool, s: State, w: World, t: nat)
    requires w.locked && HoldsAlone(cfg, strict, s, w, t)
    ensures OnItsWay(cfg, strict, s, Act(cfg, w, Advance(t)))
  {
    var job, agenda := ThreadOf(w, t).job, ThreadOf(w, t).agenda;
    var w' := Act(cfg, w, Advance(t));
    OthersWait(cfg, w, Advance(t));
    if agenda.Then? {
      var p := Micro(cfg, job, w.shared, agenda.task, agenda.rest);
      OneOff(cfg, job, strict, w.shared, agenda, Serial(cfg, s, w.won));
      assert HoldsAlone(cfg, strict, s, w', t);
    } else {
      EndsWhenEmpty(cfg, job, strict, w.shared, Serial(cfg, s, w.won));
    }
  }

  lemma ActStaysOnItsWay(cfg: Config, strict: bool, s: State, w: World, action: Action)
    requires WellFormed(s.store) && (strict ==> NodeOk(cfg, s)) && OnItsWay(cfg, strict, s, w)
    ensures OnItsWay(cfg, strict, s, Act(cfg, w, action))
  {
    var w' := Act(cfg, w, action);
    OthersWait(cfg, w, action);
    if action.Trigger? && !w.locked && ThreadOf(w, action.t).Idle? {
      WinnerStarts(cfg, strict, s, w, action.t, action.job);
    } else if action.Advance? && ThreadOf(w, action.t).Holding? {
      var t: nat :| HoldsAlone(cfg, strict, s, w, t);
      HolderAdvances(cfg, strict, s, w, t);
    } else if w.locked {
      var t: nat :| HoldsAlone(cfg, strict, s, w, t);
      assert HoldsAlone(cfg, strict, s, w', t);
    }
  }

  lemma {:induction false} ScheduleStaysOnItsWay(cfg: Config, strict: bool, s: State, actions: seq<Action>)
    requires WellFormed(s.store) && (strict ==> NodeOk(cfg, s))
    ensures OnItsWay(cfg, strict, s, Schedule(cfg, Quiet(s), actions))
  {
    if actions != [] {
      ScheduleStaysOnItsWay(cfg, strict, s, actions[..|actions| - 1]);
      ActStaysOnItsWay(cfg, strict, s, Schedule(cfg, Quiet(s), actions[..|actions| - 1]), actions[|actions| - 1]);
    }
  }

  // Whatever the schedule, once the lock is free the shared state is what the
  // winners, run one after another, leave behind.
  lemma EveryScheduleIsSerial(cfg: Config, s: State, actions: seq<Action>)
    requires WellFormed(s.store)
    ensures var w := Schedule(cfg, Quiet(s), actions);
            !w.locked ==> w.shared == Serial(cfg, s, w.won)
  {
    ScheduleStaysOnItsWay(cfg, false, s, actions);
  }

  // At every moment at most one thread is inside a pass, and only under the lock.
  lemma {:induction false} AtMostOneInside(cfg: Config, s: State, actions: seq<Action>, t: nat, u: nat)
    requires WellFormed(s.store)
    requires var w := Schedule(cfg, Quiet(s), actions); ThreadOf(w, t).Holding? && ThreadOf(w, u).Holding?
    ensures t == u && Schedule(cfg, Quiet(s), actions).locked
  {
    ScheduleStaysOnItsWay(cfg, false, s, actions);
  }

  // A trigger of an idle thread wins exactly when no thread is inside a pass; it then is,
  // with all of the pass before it.
  lemma {:induction false} IdleTriggerWinsIff(cfg: Config, s: State, actions: seq<Action>, t: nat, job: Job)
    requires WellFormed(s.store)
    requires ThreadOf(Schedule(cfg, Quiet(s), actions), t).Idle?
    ensures var w := Schedule(cfg, Quiet(s), actions);
            var w' := Schedule(cfg, Quiet(s), actions + [Trigger(t, job)]);
            if exists u: nat :: ThreadOf(w, u).Holding? then w' == w
            else w'.locked && w'.won == w.won + [job] && w'.shared == w.shared && w'.advertised == w.advertised
                 && ThreadOf(w', t) == Holding(job, Begin(job))
                 && forall u: nat | u != t :: ThreadOf(w', u) == ThreadOf(w, u)
  {
    ScheduleStaysOnItsWay(cfg, false, s, actions);
    assert (actions + [Trigger(t, job)])[..|actions|] == actions;
  }

  // A trigger that loses and every step of a heartbeat leave the records, the
  // allocator, the containers, the reports and the lock as they are.
  lemma LosersAndHeartbeatsChangeNothing(cfg: Config, w: World, action: Action)
    requires (action.Trigger? && w.locked) || action.Beat? || (action.Advance? && ThreadOf(w, action.t).Beating?)
    ensures var w' := Act(cfg, w, action); w'.shared == w.shared && w'.locked == w.locked && w'.won == w.won
  {}

  lemma {:induction false} WonOnlyGrows(cfg: Config, w: World, actions: seq<Action>)
    ensures w.won <= Schedule(cfg, w, actions).won
  {
    if actions != [] {
      WonOnlyGrows(cfg, w, actions[..|actions| - 1]);
    }
  }

  // While nobody wins the lock nothing moves, and a heartbeat that is between its two
  // reads keeps what it has read unless it is advanced.
  lemma {:induction false} NothingMoves(cfg: Config, w: World, actions: seq<Action>, t: nat)
    requires !w.locked && (forall u: nat :: !ThreadOf(w, u).Holding?) && ThreadOf(w, t).Beating?
    requires Schedule(cfg, w, actions).won == w.won && Advance(t) !in actions
    ensures var w' := Schedule(cfg, w, actions);
            && w'.shared == w.shared && !w'.locked && (forall u: nat :: !ThreadOf(w', u).Holding?)
            && ThreadOf(w', t) == ThreadOf(w, t)
  {
    if actions != [] {
      var init, action := actions[..|actions| - 1], actions[|actions| - 1];
      WonOnlyGrows(cfg, w, init);
      var w1 := Schedule(cfg, w, init);
      assert w1.won <= Act(cfg, w1, action).won;
      NothingMoves(cfg, w, init, t);
      OthersWait(cfg, w1, action);
    }
  }

  lemma SnapshotIsRecords(store: Store)
    requires WellFormed(store)
    ensures Snapshot(store) == Records(store)
  {
    var rs := Snapshot(store);
    SnapshotHolds(store, 0);
    assert Ids(rs) == store.order;
    forall i | 0 <= i < |rs| ensures rs[i] == Records(store)[i] {
      assert Ids(rs)[i] == store.order[i];
      assert Get(store, rs[i].id) == Some(rs[i]);
    }
  }

  lemma BeatIsExact(cfg: Config, w: World, t: nat, busy: set<int>, between: seq<Action>)
    requires WellFormed(w.shared.store) && Advance(t) !in between
    requires !w.locked && (forall u: nat :: !ThreadOf(w, u).Holding?) && ThreadOf(w, t).Idle?
    requires Schedule(cfg, Act(cfg, w, Beat(t, busy)), between).won == w.won
    ensures var w2 := Schedule(cfg, Act(cfg, w, Beat(t, busy)), between);
            Act(cfg, w2, Advance(t)).advertised == w2.advertised + [AvailableGpus(cfg, w.shared, busy)]
  {
    OthersWait(cfg, w, Beat(t, busy));
    NothingMoves(cfg, Act(cfg, w, Beat(t, busy)), between, t);
    SnapshotIsRecords(w.shared.store);
  }

  // A heartbeat whose two reads fall outside every pass advertises exactly the
  // capacity of the shared state, whatever other heartbeats and losing triggers do.
  lemma UndisturbedHeartbeatIsExact(cfg: Config, s: State, before: seq<Action>, t: nat, busy: set<int>,
                                    between: seq<Action>)
    requires WellFormed(s.store) && Advance(t) !in between
    requires var w := Schedule(cfg, Quiet(s), before);
             var w1 := Act(cfg, w, Beat(t, busy));
             !w.locked && ThreadOf(w, t).Idle? && Schedule(cfg, w1, between).won == w.won
    ensures var w := Schedule(cfg, Quiet(s), before);
            var w2 := Schedule(cfg, Act(cfg, w, Beat(t, busy)), between);
            var w3 := Act(cfg, w2, Advance(t));
            WellFormed(w.shared.store) && w3.advertised == w2.advertised + [AvailableGpus(cfg, w.shared, busy)]
  {
    var w := Schedule(cfg, Quiet(s), before);
    ScheduleStaysOnItsWay(cfg, false, s, before);
    SerialStaysWellFormed(cfg, s, w.won);
    BeatIsExact(cfg, w, t, busy, between);
  }

  function Times(n: nat, action: Action): seq<Action> {
    seq(n, _ => action)
  }

  lemma {:induction false} HolderFinishes(cfg: Config, w: World, t: nat, n: nat, end: State)
    requires w.locked && ThreadOf(w, t).Holding?
    requires After(cfg, ThreadOf(w, t).job, n, Progress(w.shared, ThreadOf(w, t).agenda)) == Progress(end, Empty)
    ensures exists m: nat :: var w' := Schedule(cfg, w, Times(m, Advance(t))); !w'.locked && w'.shared == end
    decreases n
  {
    var agenda := ThreadOf(w, t).agenda;
    var w1 := Act(cfg, w, Advance(t));
    assert Times(1, Advance(t)) == [Advance(t)];
    assert Schedule(cfg, w, []) == w;
    assert Schedule(cfg, w, [Advance(t)]) == w1;
    if agenda.Then? {
      HolderFinishes(cfg, w1, t, n - 1, end);
      var m: nat :| var w' := Schedule(cfg, w1, Times(m, Advance(t))); !w'.locked && w'.shared == end;
      ScheduleSplits(cfg, w, Times(1, Advance(t)), Times(m, Advance(t)));
      assert Times(1, Advance(t)) + Times(m, Advance(t)) == Times(m + 1, Advance(t));
    }
  }

  lemma {:induction false} ScheduleSplits(cfg: Config, w: World, first: seq<Action>, second: seq<Action>)
    ensures Schedule(cfg, w, first + second) == Schedule(cfg, Schedule(cfg, w, first), second)
  {
    if second == [] {
      assert first + second == first;
    } else {
      var n := |second| - 1;
      ScheduleSplits(cfg, w, first, second[..n]);
      assert (first + second)[..|first + second| - 1] == first + second[..n];
    }
  }

  // The lock is never stuck: at any point of any schedule its holder, left to run,
  // releases it with the state the serial run promises, even when its pass crashed.
  lemma TheLockIsAlwaysReleased(cfg: Config, s: State, actions: seq<Action>)
    requires WellFormed(s.store)
    requires Schedule(cfg, Quiet(s), actions).locked
    ensures var w := Schedule(cfg, Quiet(s), actions);
            exists t: nat, m: nat :: var w' := Schedule(cfg, w, Times(m, Advance(t)));
              !w'.locked && w'.shared == Serial(cfg, s, w.won)
  {
    ScheduleStaysOnItsWay(cfg, false, s, actions);
    var w := Schedule(cfg, Quiet(s), actions);
    var t: nat :| HoldsAlone(cfg, false, s, w, t);
    var end := Serial(cfg, s, w.won);
    var n: nat :| After(cfg, ThreadOf(w, t).job, n, Progress(w.shared, ThreadOf(w, t).agenda)) == Progress(end, Empty);
    HolderFinishes(cfg, w, t, n, end);
  }

  lemma {:induction false} SerialKeepsNode(cfg: Config, s: State, jobs: seq<Job>)
    requires NodeOk(cfg, s)
    ensures NodeOk(cfg, Serial(cfg, s, jobs))
  {
    if jobs != [] {
      var s1 := Serial(cfg, s, jobs[..|jobs| - 1]);
      SerialKeepsNode(cfg, s, jobs[..|jobs| - 1]);
      match jobs[|jobs| - 1]
      case ReconcileJob(inp) => ReconcileKeepsNode(cfg, s1, inp);
      case RecoveryJob(dep) => RecoverKeepsNode(cfg, s1, dep);
    }
  }

  // No race between triggers allocates a device twice or orphans a container:
  // however the threads are scheduled, the node is sound whenever the lock is free.
  lemma {:induction false} NoScheduleDoubleAllocates(cfg: Config, s: State, actions: seq<Action>)
    requires NodeOk(cfg, s)
    ensures var w := Schedule(cfg, Quiet(s), actions); !w.locked ==> NodeOk(cfg, w.shared)
  {
    EveryScheduleIsSerial(cfg, s, actions);
    SerialKeepsNode(cfg, s, Schedule(cfg, Quiet(s), actions).won);
  }

  // Not only then: at every moment of every schedule, in the middle of a pass too, two
  // running containers of different deployments share no GPU. (A pass frees devices
  // before it stops the container on them, so this rests on the lock.)
  lemma {:induction false} IsolatedAtEveryMoment(cfg: Config, s: State, actions: seq<Action>)
    requires NodeOk(cfg, s)
    ensures Isolated(Schedule(cfg, Quiet(s), actions).shared.docker)
  {
    var w := Schedule(cfg, Quiet(s), actions);
    ScheduleStaysOnItsWay(cfg, true, s, actions);
    if w.locked {
      var t: nat :| HoldsAlone(cfg, true, s, w, t);
      LeadsFine(cfg, ThreadOf(w, t).job, true, w.shared, ThreadOf(w, t).agenda, Serial(cfg, s, w.won), Empty);
    } else {
      SerialKeepsNode(cfg, s, w.won);
      SoundIsIsolated(cfg, w.shared);
    }
  }
}
