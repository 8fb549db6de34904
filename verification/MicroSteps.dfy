/** A pass as the running thread performs it: one allocator, repository, docker or
    control-plane operation at a time, each deciding what comes next. Loop by loop,
    running the operations computes what NodeModel says. */
module MicroSteps {
  import opened Common
  import opened GpuAllocation
  import opened Repository
  import opened NodeModel
  import opened Exclusivity
  import opened Containers
  import opened Isolation
  import opened Steps
  import opened WellFormedSteps
  import opened Loops

  datatype Job = ReconcileJob(inp: PassInput) | RecoveryJob(deployment: string -> DeploymentAnswer)

  // One operation on the shared state (or one local decision).
  datatype Task =
    | FreeGpus(d: string)
    | Save(r: Record)
    | Forget(d: string)
    | Tell(d: string, state: DeploymentState)
    | StopBackend(r: Record)
    | PauseBackend(r: Record)
    | LeaseAt(i: nat)
    | DispatchLease(lease: Lease, a: Answers)
    | ProbeForStart(r: Record, w: Workload, a: Answers, guarded: bool)
    | AllocateForStart(r: Record, w: Workload, a: Answers, guarded: bool, avoid: set<int>)
    | RemoveStale(r: Record, starts: bool)
    | DockerRun(r: Record, starts: bool)
    | ProbeForResume(r: Record, a: Answers)
    | AllocateForResume(r: Record, a: Answers, avoid: set<int>)
    | DockerStart(r: Record, devices: seq<int>, a: Answers)
    | RedispatchFor(r: Record, a: Answers)
    | SnapshotForCleanup
    | CleanUp(r: Record)
    | SnapshotForRecovery
    | RecoverRecord(r: Record)

  // What the thread still has to do.
  datatype Agenda = Empty | Then(task: Task, rest: Agenda)

  function Failing(r: Record, rest: Agenda): Agenda {
    Then(FreeGpus(r.id), Then(Save(r.(status := Failed)), Then(Tell(r.id, DFailed), rest)))
  }

  function Terminating(r: Record, report: bool, rest: Agenda): Agenda {
    var told := if report then Then(Tell(r.id, DTerminated), rest) else rest;
    Then(FreeGpus(r.id), Then(StopBackend(r), Then(Save(r.(status := Terminated)), told)))
  }

  function Suspending(r: Record, rest: Agenda): Agenda {
    Then(FreeGpus(r.id), Then(PauseBackend(r), Then(Save(SuspendedRecord(r)), Then(Tell(r.id, DSuspended), rest))))
  }

  function Starting(r: Record, w: Workload, a: Answers, guarded: bool, rest: Agenda): Agenda {
    if r.kind.Pod? && !a.sshReady then Failing(r, rest) else Then(ProbeForStart(r, w, a, guarded), rest)
  }

  function GoingLive(r: Record, rest: Agenda): Agenda {
    Then(Save(r), Then(Tell(r.id, DReady), rest))
  }

  function Launching(cfg: Config, r: Record, w: Workload, devices: seq<int>, a: Answers, guarded: bool,
                     rest: Agenda): Agenda {
    var named := Equipped(cfg, r, w, GpusWanted(r.kind, w), devices);
    var starting := named.(status := Status.Starting);
    match if r.kind.Vm? then Prepared else a.preparation
    case Prepared =>
      Then(Save(starting),
        if !r.kind.Vm? then Then(RemoveStale(starting, a.backendStarts), rest)
        else if a.backendStarts then GoingLive(starting.(status := Ready, vm := true), rest)
        else Failing(starting, rest))
    case DeclaredError => Failing(if r.kind.Inference? then named else r, rest)
    case UnexpectedError =>
      // caught by the lease loop around a dispatch, but not around a resume
      if guarded then Then(Tell(r.id, DFailed), rest) else Empty
  }

  function GrantAvoiding(cfg: Config, s: State, r: Record, avoid: set<int>): Grant {
    if r.kind.Pod? && r.gpuDevices != [] then TryAllocateSpecific(cfg.totalGpus, s.alloc, r.id, r.gpuDevices)
    else TryAllocate(cfg.totalGpus, s.alloc, r.id, ResumeGpuCount(r), avoid)
  }

  function Resuming(r: Record, a: Answers, devices: seq<int>, rest: Agenda): Agenda {
    if r.kind.Pod? then Then(DockerStart(r, devices, a), rest)
    else Then(FreeGpus(r.id), Then(RedispatchFor(r, a), rest))
  }

  function LeaseTasks(s: State, lease: Lease, a: Answers, rest: Agenda): Agenda {
    match Get(s.store, lease.deployment)
    case None => if lease.suspended then rest else Then(DispatchLease(lease, a), rest)
    case Some(r) =>
      if lease.suspended then
        if r.status.Ready? || r.status.Starting? then Suspending(r, rest) else rest
      else if r.status.Suspended? then Then(ProbeForResume(r, a), rest)
      else if r.status.Accepted? || r.status.Starting? then
        Terminating(r, false, Then(Forget(lease.deployment), Then(DispatchLease(lease, a), rest)))
      else rest
  }

  function CleanTasks(r: Record, active: set<string>, fleet: set<string>, dep: DeploymentAnswer, rest: Agenda): Agenda {
    if r.id in active || r.status.Terminated? then rest
    else if r.status.Suspended? then
      if dep == Exists(DTerminated) then Terminating(r, true, Then(Forget(r.id), rest)) else rest
    else Terminating(r, r.id !in fleet, rest)
  }

  function RecoverTasks(r: Record, dep: DeploymentAnswer, rest: Agenda): Agenda {
    if r.status.Terminated? || r.status.Failed? then rest
    else
      match dep
      case Unreachable => rest
      case NotFound => Terminating(r, false, rest)
      case Exists(state) =>
        if KeptByRecovery(state) then rest else Terminating(r, state.DTerminated? || state.DFailed?, rest)
  }

  // The snapshot of the records, one item of work each.
  function CleanAll(rs: seq<Record>, i: nat, rest: Agenda): Agenda
    requires i <= |rs|
    decreases |rs| - i
  {
    if i == |rs| then rest else Then(CleanUp(rs[i]), CleanAll(rs, i + 1, rest))
  }

  function RecoverAll(rs: seq<Record>, i: nat, rest: Agenda): Agenda
    requires i <= |rs|
    decreases |rs| - i
  {
    if i == |rs| then rest else Then(RecoverRecord(rs[i]), RecoverAll(rs, i + 1, rest))
  }

  function Snapshot(store: Store): seq<Record> {
    SnapshotFrom(store, 0)
  }

  function SnapshotFrom(store: Store, i: nat): seq<Record>
    decreases |store.order| - i
  {
    if i >= |store.order| then []
    else if store.order[i] in store.runtimes then [store.runtimes[store.order[i]]] + SnapshotFrom(store, i + 1)
    else SnapshotFrom(store, i + 1)
  }

  datatype Progress = Progress(state: State, agenda: Agenda)

  function MyLeases(cfg: Config, job: Job): seq<Lease> {
    if job.ReconcileJob? then Mine(cfg, Leases(job.inp)) else []
  }

  // One operation.
  function Micro(cfg: Config, job: Job, s: State, task: Task, rest: Agenda): Progress {
    match task
    case FreeGpus(d) => Progress(FreedGpus(s, d), rest)
    case Save(r) => Progress(Saved(s, r), rest)
    case Forget(d) => Progress(Removed(s, d), rest)
    case Tell(d, state) => Progress(Reported(s, d, state), rest)
    case StopBackend(r) =>
      var stops := r.kind.Inference? || r.kind.Pod?;
      Progress(s.(docker := if stops then RemoveId(s.docker, r.container) else s.docker), rest)
    case PauseBackend(r) => Progress(s.(docker := SuspendedDocker(s.docker, r)), rest)
    case LeaseAt(i) =>
      if job.ReconcileJob? && i < |MyLeases(cfg, job)| then
        Progress(s, LeaseTasks(s, MyLeases(cfg, job)[i], job.inp.answers(i), Then(LeaseAt(i + 1), rest)))
      else Progress(s, Then(SnapshotForCleanup, rest))
    case DispatchLease(lease, a) =>
      (match a.workload
       case LookupFailed => Progress(s, Then(Tell(lease.deployment, DFailed), rest))
       case Missing => Progress(s, Then(Tell(lease.deployment, DFailed), rest))
       case Found(w) =>
         var r := FreshRecord(lease, w);
         Progress(s, Then(Save(r), if w.kind.Unsupported? then Failing(r, rest) else Starting(r, w, a, true, rest))))
    case ProbeForStart(r, w, a, guarded) =>
      Progress(s, Then(AllocateForStart(r, w, a, guarded, Foreign(s.alloc, a.startBusy)), rest))
    case AllocateForStart(r, w, a, guarded, avoid) =>
      (match TryAllocate(cfg.totalGpus, s.alloc, r.id, GpusWanted(r.kind, w), avoid)
       case Refused => Progress(s, Failing(r, rest))
       case Granted(devices, after) => Progress(s.(alloc := after), Launching(cfg, r, w, devices, a, guarded, rest)))
    case RemoveStale(r, starts) =>
      Progress(s.(docker := RemoveNamed(s.docker, r.id, r.kind)), Then(DockerRun(r, starts), rest))
    case DockerRun(r, starts) =>
      if starts then
        Progress(s.(docker := RunNew(s.docker, Container(r.id, r.kind, PassedThrough(cfg, r), true))),
                 GoingLive(r.(status := Ready, container := Some(s.docker.nextId)), rest))
      else Progress(s, Failing(r, rest))
    case ProbeForResume(r, a) =>
      Progress(s, Then(AllocateForResume(r, a, Foreign(s.alloc, a.resumeBusy)), rest))
    case AllocateForResume(r, a, avoid) =>
      (match GrantAvoiding(cfg, s, r, avoid)
       case Refused => Progress(s, rest)
       case Granted(devices, after) => Progress(s.(alloc := after), Resuming(r, a, devices, rest)))
    case DockerStart(r, devices, a) =>
      var r1 := r.(gpuDevices := devices, gpuCount := Some(ResumeGpuCount(r)));
      if PodResumes(s.docker, r, a) then
        Progress(s.(docker := SetRunning(s.docker, r.container, true)), GoingLive(r1.(status := Ready), rest))
      else Progress(s, Then(FreeGpus(r.id), Then(Save(r1.(status := Suspended)), rest)))
    case RedispatchFor(r, a) =>
      if !a.workload.Found? then Progress(s, rest)
      else
        var r1 := r.(status := Accepted);
        Progress(s, Then(Save(r1),
          if r.kind.Inference? || r.kind.Vm? then Starting(r1, a.workload.workload, a, false, rest) else rest))
    case SnapshotForCleanup => Progress(s, CleanAll(Snapshot(s.store), 0, rest))
    case CleanUp(r) =>
      if job.ReconcileJob? then
        Progress(s, CleanTasks(r, Deployments(MyLeases(cfg, job)), Deployments(Leases(job.inp)),
                               job.inp.deployment(r.id), rest))
      else Progress(s, rest)
    case SnapshotForRecovery => Progress(s, RecoverAll(Snapshot(s.store), 0, rest))
    case RecoverRecord(r) =>
      if job.RecoveryJob? then Progress(s, RecoverTasks(r, job.deployment(r.id), rest)) else Progress(s, rest)
  }

  function Begin(job: Job): Agenda {
    if job.ReconcileJob? then Then(LeaseAt(0), Empty) else Then(SnapshotForRecovery, Empty)
  }

  function Perform(cfg: Config, job: Job, s: State): State {
    match job
    case ReconcileJob(inp) => Reconcile(cfg, s, inp)
    case RecoveryJob(dep) => Recover(s, dep)
  }

  // ----------------------------------------------------------- several operations

  function After(cfg: Config, job: Job, n: nat, p: Progress): Progress {
    if n == 0 || p.agenda.Empty? then p
    else After(cfg, job, n - 1, Micro(cfg, job, p.state, p.agenda.task, p.agenda.rest))
  }

  // In a strict account no moment on the way may have two containers on one device.
  ghost predicate Fine(strict: bool, s: State) {
    strict ==> Isolated(s.docker)
  }

  ghost predicate FineUpTo(cfg: Config, job: Job, strict: bool, n: nat, p: Progress) {
    forall m: nat | m <= n :: Fine(strict, After(cfg, job, m, p).state)
  }

  ghost predicate Leads(cfg: Config, job: Job, strict: bool, s: State, a: Agenda, t: State, b: Agenda) {
    exists n: nat ::
      After(cfg, job, n, Progress(s, a)) == Progress(t, b) && FineUpTo(cfg, job, strict, n, Progress(s, a))
  }

  lemma Here(cfg: Config, job: Job, strict: bool, s: State, a: Agenda)
    requires Fine(strict, s)
    ensures Leads(cfg, job, strict, s, a, s, a)
  {
    var p := Progress(s, a);
    assert After(cfg, job, 0, p) == p && FineUpTo(cfg, job, strict, 0, p);
  }

  lemma Onward(cfg: Config, job: Job, strict: bool, s: State, a: Agenda, t: State, b: Agenda)
    requires a.Then? && Fine(strict, s)
    requires var p := Micro(cfg, job, s, a.task, a.rest); Leads(cfg, job, strict, p.state, p.agenda, t, b)
    ensures Leads(cfg, job, strict, s, a, t, b)
  {
    var p := Micro(cfg, job, s, a.task, a.rest);
    var q := Progress(p.state, p.agenda);
    var n: nat :| After(cfg, job, n, q) == Progress(t, b) && FineUpTo(cfg, job, strict, n, q);
    forall m: nat | m <= n + 1 ensures Fine(strict, After(cfg, job, m, Progress(s, a)).state) {
      if m > 0 {
        assert After(cfg, job, m, Progress(s, a)) == After(cfg, job, m - 1, q);
      }
    }
    assert After(cfg, job, n + 1, Progress(s, a)) == Progress(t, b);
  }

  lemma OnwardTo(cfg: Config, job: Job, strict: bool, s: State, task: Task, rest: Agenda, s1: State, next: Agenda,
                 t: State, b: Agenda)
    requires Fine(strict, s) && Micro(cfg, job, s, task, rest) == Progress(s1, next)
    requires Leads(cfg, job, strict, s1, next, t, b)
    ensures Leads(cfg, job, strict, s, Then(task, rest), t, b)
  {
    Onward(cfg, job, strict, s, Then(task, rest), t, b);
  }

  lemma {:induction false} AfterAdds(cfg: Config, job: Job, n: nat, m: nat, p: Progress)
    ensures After(cfg, job, n + m, p) == After(cfg, job, m, After(cfg, job, n, p))
    decreases n
  {
    if n > 0 && p.agenda.Then? {
      AfterAdds(cfg, job, n - 1, m, Micro(cfg, job, p.state, p.agenda.task, p.agenda.rest));
    }
  }

  lemma InTurn(cfg: Config, job: Job, strict: bool, s: State, a: Agenda, t: State, b: Agenda, u: State, c: Agenda)
    requires Leads(cfg, job, strict, s, a, t, b) && Leads(cfg, job, strict, t, b, u, c)
    ensures Leads(cfg, job, strict, s, a, u, c)
  {
    var p, q := Progress(s, a), Progress(t, b);
    var n: nat :| After(cfg, job, n, p) == q && FineUpTo(cfg, job, strict, n, p);
    var m: nat :| After(cfg, job, m, q) == Progress(u, c) && FineUpTo(cfg, job, strict, m, q);
    AfterAdds(cfg, job, n, m, p);
    forall k: nat | k <= n + m ensures Fine(strict, After(cfg, job, k, p).state) {
      if k > n {
        AfterAdds(cfg, job, n, k - n, p);
      }
    }
  }

  lemma LeadsFine(cfg: Config, job: Job, strict: bool, s: State, a: Agenda, t: State, b: Agenda)
    requires Leads(cfg, job, strict, s, a, t, b)
    ensures Fine(strict, s) && Fine(strict, t)
  {
    var p := Progress(s, a);
    var n: nat :| After(cfg, job, n, p) == Progress(t, b) && FineUpTo(cfg, job, strict, n, p);
    assert Fine(strict, After(cfg, job, 0, p).state) && Fine(strict, After(cfg, job, n, p).state);
  }

  lemma QuieterStaysFine(strict: bool, s: State, s': State)
    requires Fine(strict, s) && Quieter(s.docker, s'.docker)
    ensures Fine(strict, s')
  {
    QuieterKeeps(s.docker, s'.docker, "", {});
  }

  // Plain operations, run off in a row.
  lemma Straight(cfg: Config, job: Job, strict: bool, s: State, a: Agenda, t: State, b: Agenda)
    requires a.Then? && Fine(strict, s) && Fine(strict, t)
    requires Micro(cfg, job, s, a.task, a.rest) == Progress(t, b)
    ensures Leads(cfg, job, strict, s, a, t, b)
  {
    Here(cfg, job, strict, t, b);
    Onward(cfg, job, strict, s, a, t, b);
  }

  lemma FailingRuns(cfg: Config, job: Job, strict: bool, s: State, r: Record, rest: Agenda)
    requires Fine(strict, s)
    ensures Leads(cfg, job, strict, s, Failing(r, rest), FailRuntime(s, r), rest)
  {
    var s1 := FreedGpus(s, r.id);
    var s2 := Saved(s1, r.(status := Failed));
    var t := FailRuntime(s, r);
    Straight(cfg, job, strict, s2, Then(Tell(r.id, DFailed), rest), t, rest);
    Onward(cfg, job, strict, s1, Then(Save(r.(status := Failed)), Then(Tell(r.id, DFailed), rest)), t, rest);
    Onward(cfg, job, strict, s, Failing(r, rest), t, rest);
  }

  lemma TerminatingRuns(cfg: Config, job: Job, strict: bool, s: State, r: Record, report: bool, rest: Agenda)
    requires Fine(strict, s)
    ensures Leads(cfg, job, strict, s, Terminating(r, report, rest), TerminateRuntime(s, r, report), rest)
  {
    var told := if report then Then(Tell(r.id, DTerminated), rest) else rest;
    var s1 := FreedGpus(s, r.id);
    var s2 := s1.(docker := if r.kind.Inference? || r.kind.Pod? then RemoveId(s.docker, r.container) else s.docker);
    var s3 := Saved(s2, r.(status := Terminated));
    var t := TerminateRuntime(s, r, report);
    TerminatingIsQuieter(s, r, report);
    QuieterStaysFine(strict, s, t);
    Here(cfg, job, strict, t, rest);
    if report {
      Straight(cfg, job, strict, s3, told, t, rest);
    }
    Onward(cfg, job, strict, s2, Then(Save(r.(status := Terminated)), told), t, rest);
    Onward(cfg, job, strict, s1, Then(StopBackend(r), Then(Save(r.(status := Terminated)), told)), t, rest);
    Onward(cfg, job, strict, s, Terminating(r, report, rest), t, rest);
  }

  lemma SuspendingRuns(cfg: Config, job: Job, strict: bool, s: State, r: Record, rest: Agenda)
    requires Fine(strict, s)
    ensures Leads(cfg, job, strict, s, Suspending(r, rest), SuspendRuntime(s, r), rest)
  {
    var tell := Then(Tell(r.id, DSuspended), rest);
    var save := Then(Save(SuspendedRecord(r)), tell);
    var s1 := FreedGpus(s, r.id);
    var s2 := s1.(docker := SuspendedDocker(s.docker, r));
    var s3 := Saved(s2, SuspendedRecord(r));
    var t := SuspendRuntime(s, r);
    SuspendingIsQuieter(s.docker, r);
    QuieterStaysFine(strict, s, t);
    Straight(cfg, job, strict, s3, tell, t, rest);
    Onward(cfg, job, strict, s2, save, t, rest);
    Onward(cfg, job, strict, s1, Then(PauseBackend(r), save), t, rest);
    Onward(cfg, job, strict, s, Suspending(r, rest), t, rest);
  }

  lemma GoingLiveRuns(cfg: Config, job: Job, strict: bool, s: State, r: Record, rest: Agenda)
    requires Fine(strict, s)
    ensures Leads(cfg, job, strict, s, GoingLive(r, rest), Reported(Saved(s, r), r.id, DReady), rest)
  {
    var t := Reported(Saved(s, r), r.id, DReady);
    Straight(cfg, job, strict, Saved(s, r), Then(Tell(r.id, DReady), rest), t, rest);
    Onward(cfg, job, strict, s, GoingLive(r, rest), t, rest);
  }

  lemma BackendRuns(cfg: Config, job: Job, strict: bool, s: State, r: Record, starts: bool, rest: Agenda)
    requires Fine(strict, s)
    requires strict && starts ==> Clear(s.docker, r.id, PassedThrough(cfg, r))
    requires !r.kind.Vm?
    ensures Leads(cfg, job, strict, s, Then(RemoveStale(r, starts), rest), StartBackend(cfg, s, r, starts), rest)
  {
    var s1 := s.(docker := RemoveNamed(s.docker, r.id, r.kind));
    var t := StartBackend(cfg, s, r, starts);
    RemovingIsQuieter(s.docker, r.id, r.kind);
    QuieterStaysFine(strict, s, s1);
    if starts {
      if strict {
        QuieterKeeps(s.docker, s1.docker, r.id, PassedThrough(cfg, r));
        RunKeepsIsolated(s1.docker, Container(r.id, r.kind, PassedThrough(cfg, r), true));
      }
      var s2 := s1.(docker := RunNew(s1.docker, Container(r.id, r.kind, PassedThrough(cfg, r), true)));
      GoingLiveRuns(cfg, job, strict, s2, r.(status := Ready, container := Some(s1.docker.nextId)), rest);
    } else {
      FailingRuns(cfg, job, strict, s1, r, rest);
    }
    Onward(cfg, job, strict, s1, Then(DockerRun(r, starts), rest), t, rest);
    Onward(cfg, job, strict, s, Then(RemoveStale(r, starts), rest), t, rest);
  }

  // Where the exception of a crashed start ends up.
  function Landing(o: Outcome, d: string, guarded: bool): State {
    if o.Crashed? && guarded then Reported(o.state, d, DFailed) else o.state
  }

  function LandingAgenda(o: Outcome, guarded: bool, rest: Agenda): Agenda {
    if o.Crashed? && !guarded then Empty else rest
  }

  lemma LaunchingRuns(cfg: Config, job: Job, strict: bool, s: State, r: Record, w: Workload, devices: seq<int>,
                      a: Answers, guarded: bool, rest: Agenda)
    requires Fine(strict, s)
    requires strict ==> Clear(s.docker, r.id, Elements(devices)) && (GpusWanted(r.kind, w) > 0 ==> devices != [])
    ensures var o := Launch(cfg, s, r, w, GpusWanted(r.kind, w), devices, a);
            Leads(cfg, job, strict, s, Launching(cfg, r, w, devices, a, guarded, rest),
                  Landing(o, r.id, guarded), LandingAgenda(o, guarded, rest))
  {
    var named := Equipped(cfg, r, w, GpusWanted(r.kind, w), devices);
    var starting := named.(status := Status.Starting);
    match if r.kind.Vm? then Prepared else a.preparation
    case Prepared =>
      var s1 := Saved(s, starting);
      if !r.kind.Vm? {
        if strict {
          EquippedIsPinned(cfg, r, w, devices);
          assert PassedThrough(cfg, starting) <= Elements(devices);
        }
        BackendRuns(cfg, job, strict, s1, starting, a.backendStarts, rest);
      } else if a.backendStarts {
        GoingLiveRuns(cfg, job, strict, s1, starting.(status := Ready, vm := true), rest);
      } else {
        FailingRuns(cfg, job, strict, s1, starting, rest);
      }
      Onward(cfg, job, strict, s, Launching(cfg, r, w, devices, a, guarded, rest),
             StartBackend(cfg, s1, starting, a.backendStarts), rest);
    case DeclaredError =>
      FailingRuns(cfg, job, strict, s, if r.kind.Inference? then named else r, rest);
    case UnexpectedError =>
      if guarded {
        Straight(cfg, job, strict, s, Then(Tell(r.id, DFailed), rest), Reported(s, r.id, DFailed), rest);
      } else {
        Here(cfg, job, strict, s, Empty);
      }
  }

  lemma GrantRuns(cfg: Config, job: Job, strict: bool, s: State, r: Record, w: Workload, a: Answers, guarded: bool,
                  avoid: set<int>, rest: Agenda, t: State, c: Agenda)
    requires Fine(strict, s)
    requires var g := TryAllocate(cfg.totalGpus, s.alloc, r.id, GpusWanted(r.kind, w), avoid);
             if g.Refused? then Leads(cfg, job, strict, s, Failing(r, rest), t, c)
             else Leads(cfg, job, strict, s.(alloc := g.after), Launching(cfg, r, w, g.devices, a, guarded, rest), t, c)
    ensures Leads(cfg, job, strict, s, Then(AllocateForStart(r, w, a, guarded, avoid), rest), t, c)
  {
    var task := AllocateForStart(r, w, a, guarded, avoid);
    match TryAllocate(cfg.totalGpus, s.alloc, r.id, GpusWanted(r.kind, w), avoid)
    case Refused =>
      OnwardTo(cfg, job, strict, s, task, rest, s, Failing(r, rest), t, c);
    case Granted(devices, after) =>
      OnwardTo(cfg, job, strict, s, task, rest, s.(alloc := after), Launching(cfg, r, w, devices, a, guarded, rest), t,
               c);
  }

  lemma AllocationRuns(cfg: Config, job: Job, strict: bool, s: State, r: Record, w: Workload, a: Answers, guarded: bool,
                       rest: Agenda)
    requires Fine(strict, s)
    requires strict ==> Pinned(s, r.id)
    requires !(r.kind.Pod? && !a.sshReady)
    ensures var o := StartRuntime(cfg, s, r, w, a);
            Leads(cfg, job, strict, s, Then(AllocateForStart(r, w, a, guarded, Foreign(s.alloc, a.startBusy)), rest),
                  Landing(o, r.id, guarded), LandingAgenda(o, guarded, rest))
  {
    var o := StartRuntime(cfg, s, r, w, a);
    match StartGrant(cfg, s, r, w, a) {
      case Refused => FailingRuns(cfg, job, strict, s, r, rest);
      case Granted(devices, after) =>
        if strict {
          StartGrantIsClear(cfg, s, r, w, a, Granted(devices, after));
        }
        LaunchingRuns(cfg, job, strict, s.(alloc := after), r, w, devices, a, guarded, rest);
    }
    GrantRuns(cfg, job, strict, s, r, w, a, guarded, Foreign(s.alloc, a.startBusy), rest,
              Landing(o, r.id, guarded), LandingAgenda(o, guarded, rest));
  }

  lemma ProbeRuns(cfg: Config, job: Job, strict: bool, s: State, r: Record, w: Workload, a: Answers, guarded: bool,
                  rest: Agenda, t: State, c: Agenda)
    requires Fine(strict, s)
    requires Leads(cfg, job, strict, s, Then(AllocateForStart(r, w, a, guarded, Foreign(s.alloc, a.startBusy)), rest),
                   t, c)
    ensures Leads(cfg, job, strict, s, Then(ProbeForStart(r, w, a, guarded), rest), t, c)
  {
    Onward(cfg, job, strict, s, Then(ProbeForStart(r, w, a, guarded), rest), t, c);
  }

  lemma StartingRuns(cfg: Config, job: Job, strict: bool, s: State, r: Record, w: Workload, a: Answers, guarded: bool,
                     rest: Agenda)
    requires Fine(strict, s)
    requires strict ==> Pinned(s, r.id)
    ensures var o := StartRuntime(cfg, s, r, w, a);
            Leads(cfg, job, strict, s, Starting(r, w, a, guarded, rest), Landing(o, r.id, guarded),
                  LandingAgenda(o, guarded, rest))
  {
    if r.kind.Pod? && !a.sshReady {
      FailingRuns(cfg, job, strict, s, r, rest);
    } else {
      var o := StartRuntime(cfg, s, r, w, a);
      AllocationRuns(cfg, job, strict, s, r, w, a, guarded, rest);
      ProbeRuns(cfg, job, strict, s, r, w, a, guarded, rest, Landing(o, r.id, guarded),
                LandingAgenda(o, guarded, rest));
    }
  }

  lemma DispatchRuns(cfg: Config, job: Job, strict: bool, s: State, lease: Lease, a: Answers, rest: Agenda)
    requires Fine(strict, s)
    requires strict ==> Pinned(s, lease.deployment)
    ensures Leads(cfg, job, strict, s, Then(DispatchLease(lease, a), rest), DispatchGuarded(cfg, s, lease, a), rest)
  {
    var d, t := lease.deployment, DispatchGuarded(cfg, s, lease, a);
    match a.workload
    case Found(w) =>
      var r := FreshRecord(lease, w);
      var s1 := Saved(s, r);
      var next := if w.kind.Unsupported? then Failing(r, rest) else Starting(r, w, a, true, rest);
      if w.kind.Unsupported? {
        FailingRuns(cfg, job, strict, s1, r, rest);
      } else {
        StartingRuns(cfg, job, strict, s1, r, w, a, true, rest);
      }
      Onward(cfg, job, strict, s, Then(Save(r), next), t, rest);
      Onward(cfg, job, strict, s, Then(DispatchLease(lease, a), rest), t, rest);
    case _ =>
      Straight(cfg, job, strict, s, Then(Tell(d, DFailed), rest), t, rest);
      Onward(cfg, job, strict, s, Then(DispatchLease(lease, a), rest), t, rest);
  }

  lemma DockerStartRuns(cfg: Config, job: Job, strict: bool, s: State, r: Record, devices: seq<int>, a: Answers,
                        rest: Agenda)
    requires Fine(strict, s)
    requires strict && PodResumes(s.docker, r, a) ==> Resumable(s.docker, r)
    ensures Leads(cfg, job, strict, s, Then(DockerStart(r, devices, a), rest), ResumePod(s, r, devices, a), rest)
  {
    var r1 := r.(gpuDevices := devices, gpuCount := Some(ResumeGpuCount(r)));
    var t := ResumePod(s, r, devices, a);
    if PodResumes(s.docker, r, a) {
      if strict && r.container.Some? {
        RestartKeepsIsolated(s.docker, r.container.value);
      }
      GoingLiveRuns(cfg, job, strict, s.(docker := SetRunning(s.docker, r.container, true)), r1.(status := Ready),
                    rest);
    } else {
      var s1 := FreedGpus(s, r.id);
      Straight(cfg, job, strict, s1, Then(Save(r1.(status := Suspended)), rest), t, rest);
      Onward(cfg, job, strict, s, Then(FreeGpus(r.id), Then(Save(r1.(status := Suspended)), rest)), t, rest);
    }
    Onward(cfg, job, strict, s, Then(DockerStart(r, devices, a), rest), t, rest);
  }

  lemma RestartRuns(cfg: Config, job: Job, strict: bool, s: State, r: Record, w: Workload, a: Answers, rest: Agenda)
    requires Fine(strict, s)
    requires strict ==> Pinned(s, r.id)
    ensures var o := StartRuntime(cfg, Saved(s, r), r, w, a);
            Leads(cfg, job, strict, s, Then(Save(r), Starting(r, w, a, false, rest)), o.state,
                  LandingAgenda(o, false, rest))
  {
    var o := StartRuntime(cfg, Saved(s, r), r, w, a);
    StartingRuns(cfg, job, strict, Saved(s, r), r, w, a, false, rest);
    Onward(cfg, job, strict, s, Then(Save(r), Starting(r, w, a, false, rest)), o.state, LandingAgenda(o, false, rest));
  }

  lemma RedispatchStep(cfg: Config, job: Job, strict: bool, s: State, r: Record, a: Answers, rest: Agenda, t: State,
                       c: Agenda)
    requires Fine(strict, s)
    requires var r1 := r.(status := Accepted);
             if !a.workload.Found? then Leads(cfg, job, strict, s, rest, t, c)
             else if r.kind.Inference? || r.kind.Vm? then
               Leads(cfg, job, strict, s, Then(Save(r1), Starting(r1, a.workload.workload, a, false, rest)), t, c)
             else Leads(cfg, job, strict, s, Then(Save(r1), rest), t, c)
    ensures Leads(cfg, job, strict, s, Then(RedispatchFor(r, a), rest), t, c)
  {
    Onward(cfg, job, strict, s, Then(RedispatchFor(r, a), rest), t, c);
  }

  lemma RedispatchRuns(cfg: Config, job: Job, strict: bool, s: State, r: Record, a: Answers, rest: Agenda)
    requires Fine(strict, s)
    requires strict ==> Pinned(s, r.id)
    ensures var o := Redispatch(cfg, s, r, a);
            Leads(cfg, job, strict, s, Then(RedispatchFor(r, a), rest), o.state, LandingAgenda(o, false, rest))
  {
    var o := Redispatch(cfg, s, r, a);
    var r1 := r.(status := Accepted);
    if !a.workload.Found? {
      Here(cfg, job, strict, s, rest);
    } else if r.kind.Inference? || r.kind.Vm? {
      RestartRuns(cfg, job, strict, s, r1, a.workload.workload, a, rest);
    } else {
      Straight(cfg, job, strict, s, Then(Save(r1), rest), Saved(s, r1), rest);
    }
    RedispatchStep(cfg, job, strict, s, r, a, rest, o.state, LandingAgenda(o, false, rest));
  }

  lemma FineWhenSound(cfg: Config, strict: bool, s: State)
    requires strict ==> NodeOk(cfg, s)
    ensures Fine(strict, s)
  {
    if strict {
      SoundIsIsolated(cfg, s);
    }
  }

  lemma RegrantTouchesOne(cfg: Config, s: State, r: Record, a: Answers)
    requires ResumeGrant(cfg, s, r, a).Granted?
    ensures var after := ResumeGrant(cfg, s, r, a).after;
            forall e | e != r.id :: Lookup(Released(after, r.id), e) == Lookup(s.alloc, e)
  {}

  lemma ResumingRuns(cfg: Config, job: Job, strict: bool, s: State, r: Record, a: Answers, devices: seq<int>,
                     after: Allocations, rest: Agenda)
    requires ResumeGrant(cfg, s, r, a) == Granted(devices, after)
    requires strict ==> NodeOk(cfg, s) && Get(s.store, r.id) == Some(r) && r.status.Suspended?
    ensures var o := ResumeRuntime(cfg, s, r, a);
            Leads(cfg, job, strict, s.(alloc := after), Resuming(r, a, devices, rest), o.state,
                  LandingAgenda(o, false, rest))
  {
    var s1 := s.(alloc := after);
    FineWhenSound(cfg, strict, s);
    if r.kind.Pod? {
      if strict && PodResumes(s.docker, r, a) {
        ResumedContainerIsClear(cfg, s, r, a, Granted(devices, after));
      }
      DockerStartRuns(cfg, job, strict, s1, r, devices, a, rest);
    } else {
      var s2 := FreedGpus(s1, r.id);
      var o := Redispatch(cfg, s2, r, a);
      if strict {
        RegrantTouchesOne(cfg, s, r, a);
        SoundIsPinned(cfg, s, r.id);
        PinnedAfter(s, s2, r.id);
      }
      var again := Then(RedispatchFor(r, a), rest);
      RedispatchRuns(cfg, job, strict, s2, r, a, rest);
      assert Micro(cfg, job, s1, FreeGpus(r.id), again) == Progress(s2, again);
      Onward(cfg, job, strict, s1, Then(FreeGpus(r.id), again), o.state, LandingAgenda(o, false, rest));
    }
  }

  lemma RegrantMicro(cfg: Config, job: Job, s: State, r: Record, a: Answers, avoid: set<int>, rest: Agenda)
    ensures var g, p := GrantAvoiding(cfg, s, r, avoid), Micro(cfg, job, s, AllocateForResume(r, a, avoid), rest);
            p == if g.Refused? then Progress(s, rest)
                 else Progress(s.(alloc := g.after), Resuming(r, a, g.devices, rest))
  {}

  lemma RegrantStep(cfg: Config, job: Job, strict: bool, s: State, r: Record, a: Answers, avoid: set<int>, rest: Agenda,
                    t: State, c: Agenda)
    requires Fine(strict, s)
    requires var g := GrantAvoiding(cfg, s, r, avoid);
             if g.Refused? then Leads(cfg, job, strict, s, rest, t, c)
             else Leads(cfg, job, strict, s.(alloc := g.after), Resuming(r, a, g.devices, rest), t, c)
    ensures Leads(cfg, job, strict, s, Then(AllocateForResume(r, a, avoid), rest), t, c)
  {
    RegrantMicro(cfg, job, s, r, a, avoid, rest);
    Onward(cfg, job, strict, s, Then(AllocateForResume(r, a, avoid), rest), t, c);
  }

  lemma RegrantRuns(cfg: Config, job: Job, strict: bool, s: State, r: Record, a: Answers, rest: Agenda)
    requires strict ==> NodeOk(cfg, s) && Get(s.store, r.id) == Some(r) && r.status.Suspended?
    ensures var o := ResumeRuntime(cfg, s, r, a);
            Leads(cfg, job, strict, s, Then(AllocateForResume(r, a, Foreign(s.alloc, a.resumeBusy)), rest),
                  o.state, LandingAgenda(o, false, rest))
  {
    var o := ResumeRuntime(cfg, s, r, a);
    FineWhenSound(cfg, strict, s);
    match ResumeGrant(cfg, s, r, a) {
      case Refused => Here(cfg, job, strict, s, rest);
      case Granted(devices, after) => ResumingRuns(cfg, job, strict, s, r, a, devices, after, rest);
    }
    RegrantStep(cfg, job, strict, s, r, a, Foreign(s.alloc, a.resumeBusy), rest, o.state,
                LandingAgenda(o, false, rest));
  }

  lemma ProbeResumeRuns(cfg: Config, job: Job, strict: bool, s: State, r: Record, a: Answers, rest: Agenda, t: State,
                        c: Agenda)
    requires Fine(strict, s)
    requires Leads(cfg, job, strict, s, Then(AllocateForResume(r, a, Foreign(s.alloc, a.resumeBusy)), rest), t, c)
    ensures Leads(cfg, job, strict, s, Then(ProbeForResume(r, a), rest), t, c)
  {
    Onward(cfg, job, strict, s, Then(ProbeForResume(r, a), rest), t, c);
  }

  lemma ResumeRuns(cfg: Config, job: Job, strict: bool, s: State, r: Record, a: Answers, rest: Agenda)
    requires strict ==> NodeOk(cfg, s) && Get(s.store, r.id) == Some(r) && r.status.Suspended?
    ensures var o := ResumeRuntime(cfg, s, r, a);
            Leads(cfg, job, strict, s, Then(ProbeForResume(r, a), rest), o.state, LandingAgenda(o, false, rest))
  {
    var o := ResumeRuntime(cfg, s, r, a);
    FineWhenSound(cfg, strict, s);
    RegrantRuns(cfg, job, strict, s, r, a, rest);
    ProbeResumeRuns(cfg, job, strict, s, r, a, rest, o.state, LandingAgenda(o, false, rest));
  }

  lemma RetryRuns(cfg: Config, job: Job, strict: bool, s: State, r: Record, lease: Lease, a: Answers, rest: Agenda)
    requires strict ==> NodeOk(cfg, s)
    requires r.id == lease.deployment
    ensures Leads(cfg, job, strict, s,
                  Terminating(r, false, Then(Forget(lease.deployment), Then(DispatchLease(lease, a), rest))),
                  DispatchGuarded(cfg, Removed(TerminateRuntime(s, r, false), lease.deployment), lease, a), rest)
  {
    var s1 := TerminateRuntime(s, r, false);
    var s2 := Removed(s1, lease.deployment);
    var end := DispatchGuarded(cfg, s2, lease, a);
    var dispatch := Then(DispatchLease(lease, a), rest);
    var forget := Then(Forget(lease.deployment), dispatch);
    FineWhenSound(cfg, strict, s);
    TerminatingIsQuieter(s, r, false);
    QuieterStaysFine(strict, s, s1);
    if strict {
      SoundIsPinned(cfg, s, r.id);
      PinnedAfter(s, s2, r.id);
    }
    TerminatingRuns(cfg, job, strict, s, r, false, forget);
    DispatchRuns(cfg, job, strict, s2, lease, a, rest);
    Onward(cfg, job, strict, s1, forget, end, rest);
    InTurn(cfg, job, strict, s, Terminating(r, false, forget), s1, forget, end, rest);
  }

  lemma LeaseRuns(cfg: Config, job: Job, strict: bool, s: State, lease: Lease, a: Answers, rest: Agenda)
    requires strict ==> NodeOk(cfg, s)
    requires WellFormed(s.store)
    ensures var o := HandleLease(cfg, s, lease, a);
            Leads(cfg, job, strict, s, LeaseTasks(s, lease, a, rest), o.state, LandingAgenda(o, false, rest))
  {
    FineWhenSound(cfg, strict, s);
    Here(cfg, job, strict, s, rest);
    match Get(s.store, lease.deployment)
    case None =>
      if strict {
        SoundIsPinned(cfg, s, lease.deployment);
      }
      DispatchRuns(cfg, job, strict, s, lease, a, rest);
    case Some(r) =>
      assert r.id == lease.deployment;
      if lease.suspended {
        SuspendingRuns(cfg, job, strict, s, r, rest);
      } else if r.status.Suspended? {
        ResumeRuns(cfg, job, strict, s, r, a, rest);
      } else if r.status.Accepted? || r.status.Starting? {
        RetryRuns(cfg, job, strict, s, r, lease, a, rest);
      }
  }

  lemma CleanRuns(cfg: Config, job: Job, strict: bool, s: State, r: Record, active: set<string>, fleet: set<string>,
                  dep: DeploymentAnswer, rest: Agenda)
    requires Fine(strict, s)
    requires Get(s.store, r.id) == Some(r)
    ensures Leads(cfg, job, strict, s, CleanTasks(r, active, fleet, dep, rest), CleanupOne(s, r.id, active, fleet, dep),
                  rest)
  {
    Here(cfg, job, strict, s, rest);
    if r.id !in active && !r.status.Terminated? {
      if !r.status.Suspended? {
        TerminatingRuns(cfg, job, strict, s, r, r.id !in fleet, rest);
      } else if dep == Exists(DTerminated) {
        var s1 := TerminateRuntime(s, r, true);
        var forget := Then(Forget(r.id), rest);
        TerminatingRuns(cfg, job, strict, s, r, true, forget);
        LeadsFine(cfg, job, strict, s, Terminating(r, true, forget), s1, forget);
        Straight(cfg, job, strict, s1, forget, Removed(s1, r.id), rest);
        InTurn(cfg, job, strict, s, Terminating(r, true, forget), s1, forget, Removed(s1, r.id), rest);
      }
    }
  }

  lemma RecoverRuns(cfg: Config, job: Job, strict: bool, s: State, r: Record, dep: DeploymentAnswer, rest: Agenda)
    requires Fine(strict, s)
    requires Get(s.store, r.id) == Some(r)
    ensures Leads(cfg, job, strict, s, RecoverTasks(r, dep, rest), RecoverOne(s, r.id, dep), rest)
  {
    Here(cfg, job, strict, s, rest);
    TerminatingRuns(cfg, job, strict, s, r, true, rest);
    TerminatingRuns(cfg, job, strict, s, r, false, rest);
  }

  // ------------------------------------------------------------------- the loops

  // rs[i..] is still what the repository holds, one record per deployment.
  ghost predicate Current(store: Store, rs: seq<Record>, i: nat) {
    && WellFormed(store)
    && (forall j | i <= j < |rs| :: Get(store, rs[j].id) == Some(rs[j]))
    && (forall j, k | i <= j < k < |rs| :: rs[j].id != rs[k].id)
  }

  function Ids(rs: seq<Record>): seq<string> {
    seq(|rs|, i requires 0 <= i < |rs| => rs[i].id)
  }

  lemma OneMoreHeld(store: Store, i: nat, rest: seq<Record>)
    requires WellFormed(store) && i < |store.order| && Ids(rest) == store.order[i + 1..] && Current(store, rest, 0)
    ensures store.order[i] in store.runtimes
    ensures var rs := [store.runtimes[store.order[i]]] + rest; Ids(rs) == store.order[i..] && Current(store, rs, 0)
  {
    assert store.order[i] in store.order;
    var rs := [store.runtimes[store.order[i]]] + rest;
    forall j | 0 <= j < |rest| ensures rest[j].id != store.order[i] {
      assert rest[j].id == Ids(rest)[j] == store.order[i + 1 + j];
    }
    forall j | 0 <= j < |rs| ensures Ids(rs)[j] == store.order[i..][j] {
      if j > 0 {
        assert Ids(rs)[j] == Ids(rest)[j - 1];
      }
    }
  }

  lemma {:induction false} SnapshotHolds(store: Store, i: nat)
    requires WellFormed(store) && i <= |store.order|
    ensures Ids(SnapshotFrom(store, i)) == store.order[i..]
    ensures Current(store, SnapshotFrom(store, i), 0)
    decreases |store.order| - i
  {
    if i < |store.order| {
      SnapshotHolds(store, i + 1);
      OneMoreHeld(store, i, SnapshotFrom(store, i + 1));
    }
  }

  lemma StillCurrent(s: State, t: State, rs: seq<Record>, i: nat)
    requires i < |rs| && Current(s.store, rs, i) && Serves(s, t, rs[i].id) && WellFormed(t.store)
    ensures Current(t.store, rs, i + 1)
  {
    forall j | i + 1 <= j < |rs| ensures Get(t.store, rs[j].id) == Some(rs[j]) {
      assert rs[i].id != rs[j].id;
    }
  }

  lemma OneCleaned(cfg: Config, job: Job, strict: bool, s: State, rs: seq<Record>, i: nat, rest: Agenda)
    requires Fine(strict, s)
    requires job.ReconcileJob? && i < |rs| && Current(s.store, rs, i)
    ensures var t := CleanupOne(s, rs[i].id, Deployments(MyLeases(cfg, job)), Deployments(Leases(job.inp)),
                                job.inp.deployment(rs[i].id));
            && Leads(cfg, job, strict, s, CleanAll(rs, i, rest), t, CleanAll(rs, i + 1, rest))
            && Current(t.store, rs, i + 1) && Fine(strict, t)
  {
    var active, fleet, r := Deployments(MyLeases(cfg, job)), Deployments(Leases(job.inp)), rs[i];
    var dep := job.inp.deployment(r.id);
    var t := CleanupOne(s, r.id, active, fleet, dep);
    var more := CleanAll(rs, i + 1, rest);
    CleanRuns(cfg, job, strict, s, r, active, fleet, dep, more);
    Onward(cfg, job, strict, s, Then(CleanUp(r), more), t, more);
    LeadsFine(cfg, job, strict, s, Then(CleanUp(r), more), t, more);
    CleanupOneServes(s, r.id, active, fleet, dep);
    CleanupStaysWellFormed(s, r.id, active, fleet, dep);
    StillCurrent(s, t, rs, i);
  }

  lemma {:induction false} CleaningRuns(cfg: Config, job: Job, strict: bool, s: State, rs: seq<Record>, i: nat,
                                        rest: Agenda)
    requires Fine(strict, s)
    requires job.ReconcileJob? && i <= |rs| && Current(s.store, rs, i)
    ensures Leads(cfg, job, strict, s, CleanAll(rs, i, rest),
                  CleanupLoop(s, Ids(rs), Deployments(MyLeases(cfg, job)), Deployments(Leases(job.inp)),
                              job.inp.deployment, i), rest)
    decreases |rs| - i
  {
    if i == |rs| {
      Here(cfg, job, strict, s, rest);
    } else {
      var active, fleet, dep := Deployments(MyLeases(cfg, job)), Deployments(Leases(job.inp)), job.inp.deployment;
      var t := CleanupOne(s, rs[i].id, active, fleet, dep(rs[i].id));
      OneCleaned(cfg, job, strict, s, rs, i, rest);
      CleaningRuns(cfg, job, strict, t, rs, i + 1, rest);
      InTurn(cfg, job, strict, s, CleanAll(rs, i, rest), t, CleanAll(rs, i + 1, rest),
             CleanupLoop(t, Ids(rs), active, fleet, dep, i + 1), rest);
    }
  }

  lemma OneRecovered(cfg: Config, job: Job, strict: bool, s: State, rs: seq<Record>, i: nat, rest: Agenda)
    requires Fine(strict, s)
    requires job.RecoveryJob? && i < |rs| && Current(s.store, rs, i)
    ensures var t := RecoverOne(s, rs[i].id, job.deployment(rs[i].id));
            && Leads(cfg, job, strict, s, RecoverAll(rs, i, rest), t, RecoverAll(rs, i + 1, rest))
            && Current(t.store, rs, i + 1) && Fine(strict, t)
  {
    var r := rs[i];
    var dep := job.deployment(r.id);
    var t := RecoverOne(s, r.id, dep);
    var more := RecoverAll(rs, i + 1, rest);
    RecoverRuns(cfg, job, strict, s, r, dep, more);
    Onward(cfg, job, strict, s, Then(RecoverRecord(r), more), t, more);
    LeadsFine(cfg, job, strict, s, Then(RecoverRecord(r), more), t, more);
    RecoverOneServes(s, r.id, dep);
    RecoverStaysWellFormed(s, r.id, dep);
    StillCurrent(s, t, rs, i);
  }

  lemma {:induction false} RecoveringRuns(cfg: Config, job: Job, strict: bool, s: State, rs: seq<Record>, i: nat,
                                          rest: Agenda)
    requires Fine(strict, s)
    requires job.RecoveryJob? && i <= |rs| && Current(s.store, rs, i)
    ensures Leads(cfg, job, strict, s, RecoverAll(rs, i, rest), RecoverLoop(s, Ids(rs), job.deployment, i), rest)
    decreases |rs| - i
  {
    if i == |rs| {
      Here(cfg, job, strict, s, rest);
    } else {
      var t := RecoverOne(s, rs[i].id, job.deployment(rs[i].id));
      OneRecovered(cfg, job, strict, s, rs, i, rest);
      RecoveringRuns(cfg, job, strict, t, rs, i + 1, rest);
      InTurn(cfg, job, strict, s, RecoverAll(rs, i, rest), t, RecoverAll(rs, i + 1, rest),
             RecoverLoop(t, Ids(rs), job.deployment, i + 1), rest);
    }
  }

  lemma CleanupRuns(cfg: Config, job: Job, strict: bool, s: State)
    requires Fine(strict, s)
    requires job.ReconcileJob? && WellFormed(s.store)
    ensures Leads(cfg, job, strict, s, Then(SnapshotForCleanup, Empty), Cleanup(cfg, s, job.inp), Empty)
  {
    var rs := Snapshot(s.store);
    SnapshotHolds(s.store, 0);
    assert Ids(rs) == s.store.order;
    CleaningRuns(cfg, job, strict, s, rs, 0, Empty);
    Onward(cfg, job, strict, s, Then(SnapshotForCleanup, Empty), Cleanup(cfg, s, job.inp), Empty);
  }

  // The lease loop from its i-th lease on, and the cleanup unless it crashed.
  function FinishReconcile(cfg: Config, s: State, inp: PassInput, i: nat): State
    requires i <= |Mine(cfg, Leases(inp))|
  {
    match LeaseLoop(cfg, s, Mine(cfg, Leases(inp)), inp.answers, i)
    case Done(t) => Cleanup(cfg, t, inp)
    case Crashed(t) => t
  }

  lemma LeasesDone(cfg: Config, job: Job, strict: bool, s: State)
    requires Fine(strict, s) && job.ReconcileJob? && WellFormed(s.store)
    ensures var n := |MyLeases(cfg, job)|;
            Leads(cfg, job, strict, s, Then(LeaseAt(n), Empty), FinishReconcile(cfg, s, job.inp, n), Empty)
  {
    var task := LeaseAt(|MyLeases(cfg, job)|);
    CleanupRuns(cfg, job, strict, s);
    OnwardTo(cfg, job, strict, s, task, Empty, s, Then(SnapshotForCleanup, Empty), Cleanup(cfg, s, job.inp), Empty);
  }

  lemma LeaseTakenUp(cfg: Config, job: Job, strict: bool, s: State, i: nat, t: State, b: Agenda)
    requires Fine(strict, s) && job.ReconcileJob? && i < |MyLeases(cfg, job)|
    requires var tasks := LeaseTasks(s, MyLeases(cfg, job)[i], job.inp.answers(i), Then(LeaseAt(i + 1), Empty));
             Leads(cfg, job, strict, s, tasks, t, b)
    ensures Leads(cfg, job, strict, s, Then(LeaseAt(i), Empty), t, b)
  {
    var tasks := LeaseTasks(s, MyLeases(cfg, job)[i], job.inp.answers(i), Then(LeaseAt(i + 1), Empty));
    OnwardTo(cfg, job, strict, s, LeaseAt(i), Empty, s, tasks, t, b);
  }

  lemma LeaseStepRuns(cfg: Config, job: Job, strict: bool, s: State, i: nat, lease: Lease, a: Answers)
    requires strict ==> NodeOk(cfg, s)
    requires job.ReconcileJob? && WellFormed(s.store) && i < |MyLeases(cfg, job)|
    requires lease == MyLeases(cfg, job)[i] && a == job.inp.answers(i)
    ensures var o := HandleLease(cfg, s, lease, a);
            Leads(cfg, job, strict, s, Then(LeaseAt(i), Empty), o.state,
                  LandingAgenda(o, false, Then(LeaseAt(i + 1), Empty)))
  {
    var next := Then(LeaseAt(i + 1), Empty);
    var o := HandleLease(cfg, s, lease, a);
    FineWhenSound(cfg, strict, s);
    LeaseRuns(cfg, job, strict, s, lease, a, next);
    LeaseTakenUp(cfg, job, strict, s, i, o.state, LandingAgenda(o, false, next));
  }

  lemma LeaseStaysSound(cfg: Config, strict: bool, s: State, lease: Lease, a: Answers)
    requires WellFormed(s.store) && (strict ==> NodeOk(cfg, s))
    ensures var t := HandleLease(cfg, s, lease, a).state; WellFormed(t.store) && (strict ==> NodeOk(cfg, t))
  {
    LeaseStaysWellFormed(cfg, s, lease, a);
    if strict {
      HandleLeaseKeeps(cfg, s, lease, a);
      HandleLeaseKeepsDocker(cfg, s, lease, a);
    }
  }

  lemma {:induction false} LeasesRun(cfg: Config, job: Job, strict: bool, s: State, i: nat)
    requires strict ==> NodeOk(cfg, s)
    requires job.ReconcileJob? && WellFormed(s.store) && i <= |MyLeases(cfg, job)|
    ensures Leads(cfg, job, strict, s, Then(LeaseAt(i), Empty), FinishReconcile(cfg, s, job.inp, i), Empty)
    decreases |MyLeases(cfg, job)| - i
  {
    if i == |MyLeases(cfg, job)| {
      FineWhenSound(cfg, strict, s);
      LeasesDone(cfg, job, strict, s);
    } else {
      var lease, a := MyLeases(cfg, job)[i], job.inp.answers(i);
      var o := HandleLease(cfg, s, lease, a);
      LeaseStepRuns(cfg, job, strict, s, i, lease, a);
      LeaseStaysSound(cfg, strict, s, lease, a);
      if o.Done? {
        LeasesRun(cfg, job, strict, o.state, i + 1);
        InTurn(cfg, job, strict, s, Then(LeaseAt(i), Empty), o.state, Then(LeaseAt(i + 1), Empty),
               FinishReconcile(cfg, o.state, job.inp, i + 1), Empty);
      }
    }
  }

  lemma PerformStaysWellFormed(cfg: Config, job: Job, s: State)
    requires WellFormed(s.store)
    ensures WellFormed(Perform(cfg, job, s).store)
  {
    var P := (t: State) => WellFormed(t.store);
    match job
    case ReconcileJob(inp) =>
      var mine := Mine(cfg, Leases(inp));
      var active, fleet := Deployments(mine), Deployments(Leases(inp));
      forall t: State, j: nat | j < |mine| && P(t) ensures P(HandleLease(cfg, t, mine[j], inp.answers(j)).state) {
        LeaseStaysWellFormed(cfg, t, mine[j], inp.answers(j));
      }
      forall t: State, d: string | P(t) ensures P(CleanupOne(t, d, active, fleet, inp.deployment(d))) {
        CleanupStaysWellFormed(t, d, active, fleet, inp.deployment(d));
      }
      ReconcileKeeps(cfg, s, inp, P);
    case RecoveryJob(dep) =>
      forall t: State, d: string | P(t) ensures P(RecoverOne(t, d, dep(d))) {
        RecoverStaysWellFormed(t, d, dep(d));
      }
      RecoverLoopKeeps(s, s.store.order, dep, 0, P);
  }
}
