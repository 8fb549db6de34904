/** Crash safety of starts, operation by operation: in every schedule of any number of
    threads, a container is only run once the state file names the devices it will be
    pinned to. */
module StartOrder {
  import opened Common
  import opened GpuAllocation
  import opened Repository
  import opened NodeModel
  import opened MicroSteps
  import opened Interleaving

  // The two docker operations of a start.
  predicate StartsBackend(t: Task) {
    t.RemoveStale? || t.DockerRun?
  }

  // The record a start works on is the one saved by the operation before it.
  predicate Announced(t: Task, next: Task) {
    StartsBackend(next) ==> t == Save(next.r)
  }

  predicate InOrder(a: Agenda) {
    a.Then? ==> InOrder(a.rest) && (a.rest.Then? ==> Announced(a.task, a.rest.task))
  }

  // Nothing that starts a backend comes first.
  predicate Neutral(a: Agenda) {
    InOrder(a) && (a.Then? ==> !StartsBackend(a.task))
  }

  // The record is in memory and in the state file, as the start will use it.
  ghost predicate OnDisk(s: State, r: Record) {
    && Get(s.store, r.id) == Some(r)
    && |s.saves| > 0 && s.saves[|s.saves| - 1] == s.store
  }

  ghost predicate Ordered(p: Progress) {
    InOrder(p.agenda) && (p.agenda.Then? && StartsBackend(p.agenda.task) ==> OnDisk(p.state, p.agenda.task.r))
  }

  lemma ThenNeutral(t: Task, rest: Agenda)
    requires Neutral(rest) && !StartsBackend(t)
    ensures Neutral(Then(t, rest))
  {}

  lemma FailingIsNeutral(r: Record, rest: Agenda)
    requires Neutral(rest)
    ensures Neutral(Failing(r, rest))
  {
    ThenNeutral(Tell(r.id, DFailed), rest);
    ThenNeutral(Save(r.(status := Failed)), Then(Tell(r.id, DFailed), rest));
  }

  lemma TerminatingIsNeutral(r: Record, report: bool, rest: Agenda)
    requires Neutral(rest)
    ensures Neutral(Terminating(r, report, rest))
  {
    var told := if report then Then(Tell(r.id, DTerminated), rest) else rest;
    ThenNeutral(Save(r.(status := Terminated)), told);
    ThenNeutral(StopBackend(r), Then(Save(r.(status := Terminated)), told));
  }

  lemma GoingLiveIsNeutral(r: Record, rest: Agenda)
    requires Neutral(rest)
    ensures Neutral(GoingLive(r, rest))
  {
    ThenNeutral(Tell(r.id, DReady), rest);
  }

  lemma SuspendingIsNeutral(r: Record, rest: Agenda)
    requires Neutral(rest)
    ensures Neutral(Suspending(r, rest))
  {
    var tell := Then(Tell(r.id, DSuspended), rest);
    ThenNeutral(Save(SuspendedRecord(r)), tell);
    ThenNeutral(PauseBackend(r), Then(Save(SuspendedRecord(r)), tell));
  }

  lemma StartingIsNeutral(r: Record, w: Workload, a: Answers, guarded: bool, rest: Agenda)
    requires Neutral(rest)
    ensures Neutral(MicroSteps.Starting(r, w, a, guarded, rest))
  {
    FailingIsNeutral(r, rest);
  }

  lemma LaunchingIsNeutral(cfg: Config, r: Record, w: Workload, devices: seq<int>, a: Answers, guarded: bool,
                           rest: Agenda)
    requires Neutral(rest)
    ensures Neutral(Launching(cfg, r, w, devices, a, guarded, rest))
  {
    var named := Equipped(cfg, r, w, GpusWanted(r.kind, w), devices);
    var starting := named.(status := Status.Starting);
    GoingLiveIsNeutral(starting.(status := Ready, vm := true), rest);
    FailingIsNeutral(starting, rest);
    FailingIsNeutral(if r.kind.Inference? then named else r, rest);
    assert InOrder(Then(RemoveStale(starting, a.backendStarts), rest));
  }

  lemma LeaseTasksAreNeutral(s: State, lease: Lease, a: Answers, rest: Agenda)
    requires Neutral(rest)
    ensures Neutral(LeaseTasks(s, lease, a, rest))
  {
    var again := Then(DispatchLease(lease, a), rest);
    match Get(s.store, lease.deployment)
    case None =>
    case Some(r) =>
      SuspendingIsNeutral(r, rest);
      ThenNeutral(Forget(lease.deployment), again);
      TerminatingIsNeutral(r, false, Then(Forget(lease.deployment), again));
  }

  lemma CleanTasksAreNeutral(r: Record, active: set<string>, fleet: set<string>, dep: DeploymentAnswer, rest: Agenda)
    requires Neutral(rest)
    ensures Neutral(CleanTasks(r, active, fleet, dep, rest))
  {
    ThenNeutral(Forget(r.id), rest);
    TerminatingIsNeutral(r, true, Then(Forget(r.id), rest));
    TerminatingIsNeutral(r, r.id !in fleet, rest);
  }

  lemma RecoverTasksAreNeutral(r: Record, dep: DeploymentAnswer, rest: Agenda)
    requires Neutral(rest)
    ensures Neutral(RecoverTasks(r, dep, rest))
  {
    TerminatingIsNeutral(r, true, rest);
    TerminatingIsNeutral(r, false, rest);
  }

  lemma {:induction false} LoopsAreNeutral(rs: seq<Record>, i: nat, rest: Agenda)
    requires Neutral(rest) && i <= |rs|
    ensures Neutral(CleanAll(rs, i, rest)) && Neutral(RecoverAll(rs, i, rest))
    decreases |rs| - i
  {
    if i < |rs| {
      LoopsAreNeutral(rs, i + 1, rest);
    }
  }

  lemma DispatchIsNeutral(cfg: Config, job: Job, s: State, lease: Lease, a: Answers, rest: Agenda)
    requires Neutral(rest)
    ensures Neutral(Micro(cfg, job, s, DispatchLease(lease, a), rest).agenda)
  {
    if a.workload.Found? {
      var r := FreshRecord(lease, a.workload.workload);
      FailingIsNeutral(r, rest);
      StartingIsNeutral(r, a.workload.workload, a, true, rest);
    }
  }

  lemma ResumeStepsAreNeutral(cfg: Config, job: Job, s: State, task: Task, rest: Agenda)
    requires Neutral(rest) && (task.AllocateForResume? || task.DockerStart? || task.RedispatchFor?)
    ensures Neutral(Micro(cfg, job, s, task, rest).agenda)
  {
    match task
    case AllocateForResume(r, a, avoid) =>
      ThenNeutral(RedispatchFor(r, a), rest);
    case DockerStart(r, devices, a) =>
      var r1 := r.(gpuDevices := devices, gpuCount := Some(ResumeGpuCount(r)));
      GoingLiveIsNeutral(r1.(status := Ready), rest);
      ThenNeutral(Save(r1.(status := Suspended)), rest);
    case RedispatchFor(r, a) =>
      if a.workload.Found? {
        StartingIsNeutral(r.(status := Accepted), a.workload.workload, a, false, rest);
      }
  }

  // Every operation but a save leaves an agenda that starts no backend right away;
  // and what a save is followed by was announced by it.
  lemma MicroStaysOrdered(cfg: Config, job: Job, s: State, task: Task, rest: Agenda)
    requires Ordered(Progress(s, Then(task, rest)))
    ensures Ordered(Micro(cfg, job, s, task, rest))
  {
    if task.Save? {
    } else if task.RemoveStale? {
      RemovalStaysOrdered(cfg, job, s, task, rest);
    } else {
      assert Neutral(rest);
      OthersStayNeutral(cfg, job, s, task, rest);
    }
  }

  lemma RemovalStaysOrdered(cfg: Config, job: Job, s: State, task: Task, rest: Agenda)
    requires task.RemoveStale? && Ordered(Progress(s, Then(task, rest)))
    requires Neutral(rest)
    ensures Ordered(Micro(cfg, job, s, task, rest))
  {
    assert InOrder(Then(DockerRun(task.r, task.starts), rest));
  }

  lemma OthersStayNeutral(cfg: Config, job: Job, s: State, task: Task, rest: Agenda)
    requires Neutral(rest) && !task.Save? && !task.RemoveStale?
    ensures Neutral(Micro(cfg, job, s, task, rest).agenda)
  {
    match task
    case LeaseAt(i) =>
      if job.ReconcileJob? && i < |MyLeases(cfg, job)| {
        LeaseTasksAreNeutral(s, MyLeases(cfg, job)[i], job.inp.answers(i), Then(LeaseAt(i + 1), rest));
      }
    case DispatchLease(lease, a) => DispatchIsNeutral(cfg, job, s, lease, a, rest);
    case AllocateForStart(r, w, a, guarded, avoid) =>
      var g := TryAllocate(cfg.totalGpus, s.alloc, r.id, GpusWanted(r.kind, w), avoid);
      FailingIsNeutral(r, rest);
      if g.Granted? {
        LaunchingIsNeutral(cfg, r, w, g.devices, a, guarded, rest);
      }
    case DockerRun(r, starts) =>
      GoingLiveIsNeutral(r.(status := Ready, container := Some(s.docker.nextId)), rest);
      FailingIsNeutral(r, rest);
    case AllocateForResume(_, _, _) => ResumeStepsAreNeutral(cfg, job, s, task, rest);
    case DockerStart(_, _, _) => ResumeStepsAreNeutral(cfg, job, s, task, rest);
    case RedispatchFor(_, _) => ResumeStepsAreNeutral(cfg, job, s, task, rest);
    case SnapshotForCleanup => LoopsAreNeutral(Snapshot(s.store), 0, rest);
    case SnapshotForRecovery => LoopsAreNeutral(Snapshot(s.store), 0, rest);
    case CleanUp(r) =>
      if job.ReconcileJob? {
        CleanTasksAreNeutral(r, Deployments(MyLeases(cfg, job)), Deployments(Leases(job.inp)), job.inp.deployment(r.id),
                             rest);
      }
    case RecoverRecord(r) =>
      if job.RecoveryJob? {
        RecoverTasksAreNeutral(r, job.deployment(r.id), rest);
      }
    case _ =>
  }

  // In a world, every thread inside a pass is in order.
  ghost predicate AllOrdered(w: World) {
    forall t: nat | ThreadOf(w, t).Holding? :: Ordered(Progress(w.shared, ThreadOf(w, t).agenda))
  }

  lemma {:induction false} SchedulesAreOrdered(cfg: Config, s: State, actions: seq<Action>)
    requires WellFormed(s.store)
    ensures AllOrdered(Schedule(cfg, Quiet(s), actions))
  {
    if actions != [] {
      var before, action := Schedule(cfg, Quiet(s), actions[..|actions| - 1]), actions[|actions| - 1];
      SchedulesAreOrdered(cfg, s, actions[..|actions| - 1]);
      ScheduleStaysOnItsWay(cfg, false, s, actions[..|actions| - 1]);
      ActStaysOrdered(cfg, s, before, action);
    }
  }

  lemma ActStaysOrdered(cfg: Config, s: State, w: World, action: Action)
    requires OnItsWay(cfg, false, s, w) && AllOrdered(w)
    ensures AllOrdered(Act(cfg, w, action))
  {
    var w' := Act(cfg, w, action);
    OthersWait(cfg, w, action);
    var mine := ThreadOf(w, action.t);
    if action.Advance? && mine.Holding? && mine.agenda.Then? {
      // nobody else is inside
      MicroStaysOrdered(cfg, mine.job, w.shared, mine.agenda.task, mine.agenda.rest);
    }
  }

  // Whatever the schedule: when a thread is about to run a container for r, memory
  // and the state file hold exactly r, so a crash from here on finds the devices.
  lemma {:induction false} DevicesAreNamedBeforeDockerRun(cfg: Config, s: State, actions: seq<Action>, t: nat)
    requires WellFormed(s.store)
    requires var me := ThreadOf(Schedule(cfg, Quiet(s), actions), t);
             me.Holding? && me.agenda.Then? && me.agenda.task.DockerRun?
    ensures var w := Schedule(cfg, Quiet(s), actions);
            var r := ThreadOf(w, t).agenda.task.r;
            && w.shared.saves != []
            && Get(w.shared.saves[|w.shared.saves| - 1], r.id) == Some(r)
            && (r.gpuDevices != [] ==> PassedThrough(cfg, r) == Elements(r.gpuDevices))
  {
    SchedulesAreOrdered(cfg, s, actions);
    assert Ordered(Progress(Schedule(cfg, Quiet(s), actions).shared,
                            ThreadOf(Schedule(cfg, Quiet(s), actions), t).agenda));
  }
}
