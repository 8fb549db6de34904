/** Head and workers of a replica coming up (domain/multinode_launch.py), in time and
    in any order. */
module BringUp {
  import opened Common
  import opened MultiNode

  // ------------------------------------------------------- what the programs say

  predicate IsHead(h: Program) {
    && h.HeadProgram? && |h.steps| == 5
    && h.steps[0].BootstrapRay? && h.steps[1].PinNic? && h.steps[2].StartRayHead? && h.steps[3].WaitForGpus?
    && h.steps[4].Serve?
  }

  predicate IsWorker(w: Program) {
    w.WorkerProgram? && w.join.JoinRay?
  }

  // One set of parameters per rank, all of the same replica, whose head has this address.
  ghost predicate OneReplica(ps: seq<Params>, address: string) {
    && (forall i | 0 <= i < |ps| :: Valid(ps[i]) && ps[i].rank == i && ps[i].nodeCount == |ps|)
    && ps != [] && ps[0].role.Head? && (forall i | 0 < i < |ps| :: ps[i].role.Worker? && ps[i].headHost == address)
    && (forall i | 0 < i < |ps| ::
          && ps[i].gpusPerNode == ps[0].gpusPerNode && ps[i].headPort == ps[0].headPort
          && ps[i].waitSeconds == ps[0].waitSeconds)
  }

  // The programs its ranks run: whatever the servers' arguments and entries are.
  ghost predicate Runs(ps: seq<Params>, programs: seq<Program>) {
    |programs| == |ps|
    && forall i | 0 <= i < |ps| :: exists argv, entry :: programs[i] == ProgramOf(ps[i], argv, entry)
  }

  // The head opens Ray at the port of its parameters and declares its GPUs; a worker
  // dials the head there and declares its own; both wait equally long, the head for the
  // GPUs of all. Each first makes sure of Ray and of the interface to the head.
  lemma ProgramsAgree(ps: seq<Params>, programs: seq<Program>, address: string, i: nat)
    requires OneReplica(ps, address) && Runs(ps, programs) && i < |ps|
    ensures IsHead(programs[0])
    ensures var steps, p := programs[0].steps, ps[0];
            && steps[1] == PinNic(p.headHost) && steps[2] == StartRayHead(p.headPort, p.gpusPerNode)
            && steps[3] == WaitForGpus(p.nodeCount * p.gpusPerNode, p.waitSeconds)
    ensures i > 0 ==> IsWorker(programs[i]) && programs[i].setup == [BootstrapRay, PinNic(address)]
                      && programs[i].join == JoinRay(address, ps[0].headPort, ps[0].gpusPerNode)
                      && programs[i].seconds == ps[0].waitSeconds
  {
    var argv, entry :| programs[0] == ProgramOf(ps[0], argv, entry);
    if i > 0 {
      var argv', entry' :| programs[i] == ProgramOf(ps[i], argv', entry');
    }
  }

  const JOIN_RETRY_SECONDS := 10
  const POLL_SECONDS := 5

  // How often a wait of `period` starts again before `window` is over.
  function Periods(window: int, period: int): (k: nat)
    requires period > 0
    ensures window <= 0 ==> k == 0
    ensures window > 0 ==> period * (k - 1) < window <= period * k
  {
    if window <= 0 then 0 else (window + period - 1) / period
  }

  // ------------------------------------------------------------------- a worker

  // When a worker that starts at `start` joins a head whose Ray is up from `up` on.
  function JoinTime(start: int, window: int, up: int): Option<int> {
    var k := Periods(up - start, JOIN_RETRY_SECONDS);
    if k <= Periods(window, JOIN_RETRY_SECONDS) then Some(start + JOIN_RETRY_SECONDS * k) else None
  }

  // The k-th retry is made: ten seconds after the one before, which found no head and
  // was not too late.
  predicate TriedAt(start: int, window: int, up: int, k: nat) {
    k == 0 || (start + 10 * (k - 1) < up && 10 * (k - 1) < window)
  }

  // The `until ray start ... do ... sleep 10; done` loop.
  method WorkerJoins(start: int, window: int, up: int) returns (joined: Option<int>)
    ensures joined == JoinTime(start, window, up)
    ensures joined.Some? <==> up <= start + JOIN_RETRY_SECONDS * Periods(window, JOIN_RETRY_SECONDS)
    ensures match joined
            case Some(t) => up <= t && exists k: nat :: TriedAt(start, window, up, k) && t == start + 10 * k
            case None => exists k: nat :: TriedAt(start, window, up, k) && start + 10 * k < up && 10 * k >= window
  {
    var now := start;
    ghost var k := 0;
    while now < up
      invariant now == start + JOIN_RETRY_SECONDS * k
      invariant k <= Periods(window, JOIN_RETRY_SECONDS) && k <= Periods(up - start, JOIN_RETRY_SECONDS)
      invariant TriedAt(start, window, up, k)
      decreases up - now
    {
      if now >= start + window {
        return None;
      }
      now, k := now + JOIN_RETRY_SECONDS, k + 1;
    }
    return Some(now);
  }

  // ------------------------------------------------------------------- the head

  // A worker's join works on the port that the head opened, at the head's address.
  function Joins(head: Program, address: string, w: Program, start: int, up: int): Option<int>
    requires IsHead(head) && IsWorker(w)
  {
    if w.join.host == address && w.join.port == head.steps[2].port then JoinTime(start, w.seconds, up) else None
  }

  function GpusOfOne(head: Program, address: string, w: Program, start: int, up: int, now: int): int
    requires IsHead(head) && IsWorker(w)
  {
    var joined := Joins(head, address, w, start, up);
    if joined.Some? && joined.value <= now then w.join.gpus else 0
  }

  predicate AllWorkers(ws: seq<Program>) {
    forall i | 0 <= i < |ws| :: IsWorker(ws[i])
  }

  // What the workers that have joined by `now` declared.
  function GpusJoined(head: Program, address: string, ws: seq<Program>, starts: seq<int>, up: int, now: int): int
    requires IsHead(head) && AllWorkers(ws) && |starts| == |ws|
  {
    if ws == [] then 0
    else
      var n := |ws| - 1;
      GpusJoined(head, address, ws[..n], starts[..n], up, now) + GpusOfOne(head, address, ws[n], starts[n], up, now)
  }

  // ray.cluster_resources()['GPU']: the head's own and every joined worker's.
  function Gpus(head: Program, address: string, ws: seq<Program>, starts: seq<int>, up: int, now: int): int
    requires IsHead(head) && AllWorkers(ws) && |starts| == |ws|
  {
    head.steps[2].gpus + GpusJoined(head, address, ws, starts, up, now)
  }

  function LastPoll(window: int, up: int): int {
    up + POLL_SECONDS * Periods(window, POLL_SECONDS)
  }

  lemma {:induction false} JoinedGrows(head: Program, address: string, ws: seq<Program>, starts: seq<int>, up: int,
                                       now: int, later: int)
    requires IsHead(head) && AllWorkers(ws) && |starts| == |ws| && now <= later
    requires forall i | 0 <= i < |ws| :: ws[i].join.gpus >= 0
    ensures GpusJoined(head, address, ws, starts, up, now) <= GpusJoined(head, address, ws, starts, up, later)
  {
    if ws != [] {
      JoinedGrows(head, address, ws[..|ws| - 1], starts[..|ws| - 1], up, now, later);
    }
  }

  // The k-th poll is made, five seconds after the one before, and finds enough.
  predicate EnoughAt(head: Program, address: string, ws: seq<Program>, starts: seq<int>, up: int, k: nat)
    requires IsHead(head) && AllWorkers(ws) && |starts| == |ws|
  {
    && (k == 0 || 5 * (k - 1) < head.steps[3].seconds)
    && Gpus(head, address, ws, starts, up, up + 5 * k) >= head.steps[3].expected
  }

  // The wait loop: what counts in the end is the last poll it would make.
  method HeadWaits(head: Program, address: string, ws: seq<Program>, starts: seq<int>, up: int) returns (serves: bool)
    requires IsHead(head) && AllWorkers(ws) && |starts| == |ws|
    requires forall i | 0 <= i < |ws| :: ws[i].join.gpus >= 0
    ensures serves <==> Gpus(head, address, ws, starts, up,
                             LastPoll(head.steps[3].seconds, up)) >= head.steps[3].expected
    ensures serves <==> exists k: nat :: EnoughAt(head, address, ws, starts, up, k)
  {
    var expected, window := head.steps[3].expected, head.steps[3].seconds;
    var now := up;
    ghost var k := 0;
    while Gpus(head, address, ws, starts, up, now) < expected && now < up + window
      invariant now == up + POLL_SECONDS * k && k <= Periods(window, POLL_SECONDS)
      decreases up + window - now
    {
      now, k := now + POLL_SECONDS, k + 1;
    }
    JoinedGrows(head, address, ws, starts, up, now, LastPoll(window, up));
    serves := Gpus(head, address, ws, starts, up, now) >= expected;
    if serves {
      assert EnoughAt(head, address, ws, starts, up, k);
    } else {
      forall j: nat ensures !EnoughAt(head, address, ws, starts, up, j) {
        if j <= k {
          JoinedGrows(head, address, ws, starts, up, up + 5 * j, now);
        }
      }
    }
  }

  // --------------------------------------------------------------- the whole replica

  ghost predicate InTime(start: int, window: int, up: int) {
    JoinTime(start, window, up).Some? && JoinTime(start, window, up).value <= LastPoll(window, up)
  }

  // Workers that dial right and declare the same count.
  ghost predicate Alike(head: Program, address: string, ws: seq<Program>, gpus: int, window: int) {
    && IsHead(head)
    && forall i | 0 <= i < |ws| ::
         && IsWorker(ws[i]) && ws[i].join == JoinRay(address, head.steps[2].port, gpus) && ws[i].seconds == window
  }

  lemma CountedIfInTime(head: Program, address: string, w: Program, start: int, up: int, gpus: int, window: int)
    requires IsHead(head) && IsWorker(w) && w.join == JoinRay(address, head.steps[2].port, gpus) && w.seconds == window
    ensures GpusOfOne(head, address, w, start, up, LastPoll(window, up))
         == if InTime(start, window, up) then gpus else 0
  {}

  ghost predicate AllInTime(starts: seq<int>, window: int, up: int) {
    forall i | 0 <= i < |starts| :: InTime(starts[i], window, up)
  }

  lemma AllButLast(starts: seq<int>, window: int, up: int)
    requires starts != []
    ensures var n := |starts| - 1;
            AllInTime(starts, window, up) <==> AllInTime(starts[..n], window, up) && InTime(starts[n], window, up)
  {
    var n := |starts| - 1;
    assert forall i | 0 <= i < n :: starts[..n][i] == starts[i];
  }

  lemma OneMoreJoins(gpus: int, n: nat, before: int, last: int, all: bool, here: bool)
    requires gpus >= 1 && before <= gpus * n && (before == gpus * n <==> all) && last == if here then gpus else 0
    ensures before + last <= gpus * (n + 1) && (before + last == gpus * (n + 1) <==> all && here)
  {
    assert gpus * (n + 1) == gpus * n + gpus;
  }

  lemma {:induction false} JoinedIsBounded(head: Program, address: string, ws: seq<Program>, starts: seq<int>, up: int,
                                           gpus: int, window: int)
    requires Alike(head, address, ws, gpus, window) && |starts| == |ws| && gpus >= 1
    ensures var joined := GpusJoined(head, address, ws, starts, up, LastPoll(window, up));
            joined <= gpus * |ws| && (joined == gpus * |ws| <==> AllInTime(starts, window, up))
  {
    if ws == [] {
      assert gpus * 0 == 0;
    } else {
      var n, now := |ws| - 1, LastPoll(window, up);
      JoinedIsBounded(head, address, ws[..n], starts[..n], up, gpus, window);
      CountedIfInTime(head, address, ws[n], starts[n], up, gpus, window);
      AllButLast(starts, window, up);
      OneMoreJoins(gpus, n, GpusJoined(head, address, ws[..n], starts[..n], up, now),
                   GpusOfOne(head, address, ws[n], starts[n], up, now), AllInTime(starts[..n], window, up),
                   InTime(starts[n], window, up));
    }
  }

  lemma ValidSizes(p: Params)
    requires Valid(p)
    ensures p.nodeCount >= 2 && p.gpusPerNode >= 1
  {
    ValidHasNoProblem(p);
    assert !Has(p, TooFewNodes) && !Has(p, NoGpus);
  }

  lemma WorkersAreAlike(ps: seq<Params>, programs: seq<Program>, address: string)
    requires OneReplica(ps, address) && Runs(ps, programs)
    ensures Alike(programs[0], address, programs[1..], ps[0].gpusPerNode, ps[0].waitSeconds)
    ensures ps[0].gpusPerNode >= 1
  {
    ValidSizes(ps[0]);
    ProgramsAgree(ps, programs, address, 0);
    forall i | 0 <= i < |programs[1..]|
      ensures IsWorker(programs[1..][i]) && programs[1..][i].seconds == ps[0].waitSeconds
      ensures programs[1..][i].join == JoinRay(address, programs[0].steps[2].port, ps[0].gpusPerNode)
    {
      ProgramsAgree(ps, programs, address, i + 1);
    }
  }

  lemma AllOrTooFew(head: Program, address: string, ws: seq<Program>, starts: seq<int>, up: int, gpus: int, window: int)
    requires Alike(head, address, ws, gpus, window) && |starts| == |ws| && gpus >= 1 && head.steps[2].gpus == gpus
    ensures Gpus(head, address, ws, starts, up, LastPoll(window, up)) >= (|ws| + 1) * gpus <==>
              forall i | 0 <= i < |starts| :: InTime(starts[i], window, up)
  {
    JoinedIsBounded(head, address, ws, starts, up, gpus, window);
    assert (|ws| + 1) * gpus == gpus + gpus * |ws|;
  }

  // The head reaches its server exactly when every worker joins by the last poll.
  lemma ServesExactlyWhenAllJoin(ps: seq<Params>, programs: seq<Program>, address: string, starts: seq<int>, up: int)
    requires OneReplica(ps, address) && Runs(ps, programs) && |starts| == |ps| - 1
    ensures IsHead(programs[0]) && AllWorkers(programs[1..])
    ensures var head, window := programs[0], ps[0].waitSeconds;
            Gpus(head, address, programs[1..], starts, up,
                 LastPoll(head.steps[3].seconds, up)) >= head.steps[3].expected
            <==> forall i | 0 <= i < |starts| :: InTime(starts[i], window, up)
  {
    ProgramsAgree(ps, programs, address, 0);
    WorkersAreAlike(ps, programs, address);
    AllOrTooFew(programs[0], address, programs[1..], starts, up, ps[0].gpusPerNode, ps[0].waitSeconds);
  }

  lemma WindowSuffices(start: int, window: int, up: int)
    requires window > POLL_SECONDS && -window <= start - up <= window
    ensures InTime(start, window, up)
  {}

  // Retrying over the same window as the head makes bring-up independent of the start
  // order, but only for windows longer than one poll: the last poll must not come
  // before the second join attempt. (A window of 0 or less leaves no spread at all.)
  lemma OrderIndependenceIff(window: int)
    ensures (forall start, up | -window <= start - up <= window :: InTime(start, window, up))
              <==> (window > 5 || window <= 0)
  {
    if window > POLL_SECONDS {
      forall start, up | -window <= start - up <= window ensures InTime(start, window, up) {
        WindowSuffices(start, window, up);
      }
    } else if window > 0 {
      assert JoinTime(-1, window, 0) == Some(9);
      assert LastPoll(window, 0) == 5;
      assert !InTime(-1, window, 0);
    }
  }

  // The ranks may start in any order, up to the window apart from the head's Ray:
  // every worker joins, and the head serves.
  lemma BringUpIsOrderIndependent(ps: seq<Params>, programs: seq<Program>, address: string, starts: seq<int>, up: int)
    requires OneReplica(ps, address) && Runs(ps, programs) && |starts| == |ps| - 1 && ps[0].waitSeconds > 5
    requires forall i | 0 <= i < |starts| :: -ps[0].waitSeconds <= starts[i] - up <= ps[0].waitSeconds
    ensures IsHead(programs[0]) && AllWorkers(programs[1..])
    ensures forall i | 0 <= i < |starts| :: Joins(programs[0], address, programs[i + 1], starts[i], up).Some?
    ensures var head := programs[0];
            Gpus(head, address, programs[1..], starts, up,
                 LastPoll(head.steps[3].seconds, up)) >= head.steps[3].expected
  {
    WorkersAreAlike(ps, programs, address);
    forall i | 0 <= i < |starts| ensures InTime(starts[i], ps[0].waitSeconds, up) {
      WindowSuffices(starts[i], ps[0].waitSeconds, up);
    }
    ServesExactlyWhenAllJoin(ps, programs, address, starts, up);
    forall i | 0 <= i < |starts| ensures Joins(programs[0], address, programs[i + 1], starts[i], up).Some? {
      ProgramsAgree(ps, programs, address, i + 1);
      assert InTime(starts[i], ps[0].waitSeconds, up);
    }
  }

  // -------------------------------------------------------- safety, in any interleaving

  // The head is at step `pc` of its program. `deciding` says that its wait loop is over
  // and the GPUs are read once more; `saw` is what was there when that sufficed.
  // `members` are the ranks in Ray's cluster with the GPUs they declared.
  datatype Cluster = Cluster(
    pc: nat, gone: bool, port: Option<int>, members: map<int, int>, deciding: bool, saw: Option<map<int, int>>)

  datatype Happening =
    | HeadMoves(ok: bool, pastDeadline: bool)
    | JoinAttempt(rank: int)
    | Leaves(rank: int)

  const COLD := Cluster(0, false, None, map[], false, None)

  ghost function Total(members: map<int, int>): int
    decreases |members|
  {
    if members == map[] then 0
    else
      var k := Pick(members.Keys);
      members[k] + Total(members - {k})
  }

  function Exits(c: Cluster): Cluster {
    c.(gone := true, port := None, members := map[])
  }

  // One step of the head's script, whose steps are chained: the first two let the
  // chain go on whatever they return.
  ghost function Moves(c: Cluster, step: Step, ok: bool, pastDeadline: bool): Cluster {
    match step
    case BootstrapRay => c.(pc := c.pc + 1)
    case PinNic(_) => c.(pc := c.pc + 1)
    case StartRayHead(port, gpus) =>
      if ok then c.(pc := c.pc + 1, port := Some(port), members := map[0 := gpus]) else Exits(c)
    case WaitForGpus(expected, _) =>
      var enough := Total(c.members) >= expected;
      if !c.deciding then c.(deciding := enough || pastDeadline)
      else if enough then c.(pc := c.pc + 1, saw := Some(c.members))
      else Exits(c)
    case Serve(_) => c.(pc := c.pc + 1)
    case JoinRay(_, _, _) => Exits(c)
  }

  ghost function Happens(programs: seq<Program>, address: string, c: Cluster, e: Happening): Cluster
    requires programs != [] && IsHead(programs[0])
  {
    match e
    case HeadMoves(ok, pastDeadline) =>
      if c.gone || c.pc >= |programs[0].steps| then c else Moves(c, programs[0].steps[c.pc], ok, pastDeadline)
    case JoinAttempt(rank) =>
      if !(0 < rank < |programs|) || !IsWorker(programs[rank]) then c
      else
        var join := programs[rank].join;
        if c.port == Some(join.port) && join.host == address then c.(members := c.members[rank := join.gpus]) else c
    case Leaves(rank) => if rank == 0 then c else c.(members := c.members - {rank})
  }

  ghost function History(programs: seq<Program>, address: string, events: seq<Happening>): Cluster
    requires programs != [] && IsHead(programs[0])
  {
    if events == [] then COLD
    else Happens(programs, address, History(programs, address, events[..|events| - 1]), events[|events| - 1])
  }

  // Every member is a rank and declared the GPUs of a node.
  ghost predicate Honest(members: map<int, int>, nodes: int, gpus: int) {
    forall rank | rank in members :: 0 <= rank < nodes && members[rank] == gpus
  }

  // The head goes past its wait only after it saw every rank.
  ghost predicate Complete(c: Cluster, nodes: int, gpus: int) {
    && Honest(c.members, nodes, gpus)
    && (c.pc > 3 ==> c.saw.Some?)
    && (c.saw.Some? ==> Honest(c.saw.value, nodes, gpus) && c.saw.value.Keys == Range(0, nodes))
  }

  lemma {:induction false} TotalOfHonest(members: map<int, int>, nodes: int, gpus: int)
    requires Honest(members, nodes, gpus)
    ensures Total(members) == gpus * |members|
    decreases |members|
  {
    if members == map[] {
      assert |members| == 0;
    } else {
      var k := Pick(members.Keys);
      TotalOfHonest(members - {k}, nodes, gpus);
      assert (members - {k}).Keys == members.Keys - {k};
      assert |members| == |members - {k}| + 1;
      assert gpus * |members| == gpus * |members - {k}| + gpus;
    }
  }

  lemma FewerIsTooFew(gpus: int, members: int, nodes: int)
    requires gpus >= 1 && gpus * members >= nodes * gpus
    ensures members >= nodes
  {
    if members < nodes {
      ProductGrows(members, nodes - 1, gpus);
    }
  }

  lemma EnoughMeansEveryRank(members: map<int, int>, nodes: int, gpus: int)
    requires Honest(members, nodes, gpus) && nodes >= 2 && gpus >= 1 && Total(members) >= nodes * gpus
    ensures members.Keys == Range(0, nodes)
  {
    TotalOfHonest(members, nodes, gpus);
    FewerIsTooFew(gpus, |members|, nodes);
    SubsetCardinality(members.Keys, Range(0, nodes));
  }

  ghost predicate StepAt(pc: nat, step: Step, nodes: int, gpus: int) {
    match pc
    case 0 => step.BootstrapRay?
    case 1 => step.PinNic?
    case 2 => step.StartRayHead? && step.gpus == gpus
    case 3 => step.WaitForGpus? && step.expected == nodes * gpus
    case _ => step.Serve?
  }

  lemma MoveStaysComplete(c: Cluster, step: Step, ok: bool, late: bool, nodes: int, gpus: int)
    requires Complete(c, nodes, gpus) && StepAt(c.pc, step, nodes, gpus) && nodes >= 2 && gpus >= 1
    ensures Complete(Moves(c, step, ok, late), nodes, gpus)
  {
    if c.pc == 3 && Total(c.members) >= nodes * gpus {
      EnoughMeansEveryRank(c.members, nodes, gpus);
    }
  }

  lemma HeadStaysComplete(ps: seq<Params>, programs: seq<Program>, address: string, c: Cluster, ok: bool, late: bool)
    requires OneReplica(ps, address) && Runs(ps, programs) && Complete(c, |ps|, ps[0].gpusPerNode)
    requires IsHead(programs[0]) && c.pc < 5
    ensures Complete(Moves(c, programs[0].steps[c.pc], ok, late), |ps|, ps[0].gpusPerNode)
  {
    ProgramsAgree(ps, programs, address, 0);
    ValidSizes(ps[0]);
    assert StepAt(c.pc, programs[0].steps[c.pc], |ps|, ps[0].gpusPerNode);
    MoveStaysComplete(c, programs[0].steps[c.pc], ok, late, |ps|, ps[0].gpusPerNode);
  }

  lemma StaysComplete(ps: seq<Params>, programs: seq<Program>, address: string, c: Cluster, e: Happening)
    requires OneReplica(ps, address) && Runs(ps, programs) && Complete(c, |ps|, ps[0].gpusPerNode)
    requires IsHead(programs[0])
    ensures Complete(Happens(programs, address, c, e), |ps|, ps[0].gpusPerNode)
  {
    match e
    case HeadMoves(ok, late) =>
      if c.pc < 5 {
        HeadStaysComplete(ps, programs, address, c, ok, late);
      }
    case JoinAttempt(rank) =>
      if 0 < rank < |programs| {
        ProgramsAgree(ps, programs, address, rank);
      }
    case Leaves(rank) =>
  }

  // Whatever happens in whatever order, the head goes on to its server only after its
  // wait saw every rank, each with the GPUs of its node; that is the tensor x pipeline
  // the server is told to use.
  lemma {:induction false} ServesOnlyWithEveryRank(ps: seq<Params>, programs: seq<Program>, address: string,
                                                   events: seq<Happening>)
    requires OneReplica(ps, address) && Runs(ps, programs)
    ensures IsHead(programs[0]) && Complete(History(programs, address, events), |ps|, ps[0].gpusPerNode)
  {
    ProgramsAgree(ps, programs, address, 0);
    if events != [] {
      var before := events[..|events| - 1];
      ServesOnlyWithEveryRank(ps, programs, address, before);
      StaysComplete(ps, programs, address, History(programs, address, before), events[|events| - 1]);
    }
  }

  lemma ServesWithEnoughGpus(ps: seq<Params>, programs: seq<Program>, address: string, events: seq<Happening>)
    requires OneReplica(ps, address) && Runs(ps, programs)
    ensures IsHead(programs[0])
    ensures var c := History(programs, address, events);
            c.pc > 3 ==> c.saw.Some? && Total(c.saw.value) == ps[0].tensorParallel * ps[0].pipelineParallel
  {
    ServesOnlyWithEveryRank(ps, programs, address, events);
    var c := History(programs, address, events);
    if c.pc > 3 {
      TotalOfHonest(c.saw.value, |ps|, ps[0].gpusPerNode);
      assert |c.saw.value| == |c.saw.value.Keys| == |Range(0, |ps|)| == |ps|;
      ValidatedDegrees(ps[0]);
    }
  }

  // A worker that dials another address, or another port than the head's script opens,
  // never gets in: neither in time nor in any interleaving.
  lemma {:induction false} WrongDoorStaysShut(programs: seq<Program>, address: string, events: seq<Happening>,
                                              rank: int, start: int, up: int)
    requires 0 < rank < |programs| && IsHead(programs[0]) && IsWorker(programs[rank])
    requires programs[rank].join.host != address || programs[rank].join.port != programs[0].steps[2].port
    ensures Joins(programs[0], address, programs[rank], start, up) == None
    ensures var c := History(programs, address, events);
            rank !in c.members && (c.port.Some? ==> c.port.value == programs[0].steps[2].port)
  {
    if events != [] {
      WrongDoorStaysShut(programs, address, events[..|events| - 1], rank, start, up);
    }
  }
}
