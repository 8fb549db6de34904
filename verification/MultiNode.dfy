/** One node's share of a multi-node replica (domain/multinode_launch.py): its
    parameters, and the rewrite of its `docker run`. */
module MultiNode {
  import opened Common
  import opened Argv
  import opened Shell

  // ---------------------------------------------------------------- parameters

  datatype Role = Head | Worker

  datatype Params = Params(
    role: Role,
    rank: int,
    headHost: string,
    tensorParallel: int,
    pipelineParallel: int,
    gpusPerNode: int,
    nodeCount: int,
    headPort: int,
    waitSeconds: int)
  {
    function WorldSize(): int { tensorParallel * pipelineParallel }

    function TotalGpus(): int { nodeCount * gpusPerNode }
  }

  const DEFAULT_RAY_PORT := 6379
  const DEFAULT_CLUSTER_WAIT_SECONDS := 1800

  // A value of the JSON payload: is it there, is it truthy, what does int() make of it.
  datatype Field = Absent | Given(truthy: bool, asInt: Option<int>)

  // `role` is None when it is neither head nor worker; a missing host is "".
  datatype RawParams = RawParams(
    role: Option<Role>,
    nodeCount: Field,
    gpusPerNode: Field,
    rank: Field,
    headHost: string,
    tensorParallel: Field,
    pipelineParallel: Field,
    headPort: Field,
    waitSeconds: Field)

  function Required(f: Field): Option<int> {
    if f.Given? then f.asInt else None
  }

  // raw.get(key, default)
  function OrIfAbsent(f: Field, default: int): Option<int> {
    if f.Given? then f.asInt else Some(default)
  }

  // raw.get(key) or default
  function OrIfFalsy(f: Field, default: int): Option<int> {
    if f.Given? && f.truthy then f.asInt else Some(default)
  }

  // parse_multi_node_params: anything malformed reads as a single-node deployment.
  function Parse(payload: Option<RawParams>): Option<Params> {
    if payload.None? || payload.value.role.None? then None
    else
      var raw := payload.value;
      var nodes, gpus := Required(raw.nodeCount), Required(raw.gpusPerNode);
      if nodes.None? || gpus.None? then None
      else
        var rank := OrIfAbsent(raw.rank, 0);
        var tp := OrIfFalsy(raw.tensorParallel, gpus.value);
        var pp := OrIfFalsy(raw.pipelineParallel, nodes.value);
        var port := OrIfFalsy(raw.headPort, DEFAULT_RAY_PORT);
        var wait := OrIfFalsy(raw.waitSeconds, DEFAULT_CLUSTER_WAIT_SECONDS);
        if rank.None? || tp.None? || pp.None? || port.None? || wait.None? then None
        else
          Some(Params(raw.role.value, rank.value, raw.headHost, tp.value, pp.value, gpus.value, nodes.value,
                      port.value, wait.value))
  }

  // A value int() accepts.
  predicate IsInt(f: Field) {
    f.Given? && f.asInt.Some?
  }

  // Missing or falsy means the default; otherwise it has to be an integer.
  predicate IsOptional(f: Field) {
    f.Absent? || !f.truthy || f.asInt.Some?
  }

  predicate Overrides(f: Field) {
    f.Given? && f.truthy
  }

  // A payload is read as one rank's parameters if and only if it names a role and its
  // numbers are numbers; degrees left out are a node's GPUs and the nodes, the port is
  // then 6379 and the wait half an hour.
  lemma ParseIsExact(raw: RawParams)
    ensures Parse(None) == None
    ensures Parse(Some(raw)).Some? <==>
              && raw.role.Some? && IsInt(raw.nodeCount) && IsInt(raw.gpusPerNode)
              && (raw.rank.Absent? || IsInt(raw.rank)) && IsOptional(raw.tensorParallel)
              && IsOptional(raw.pipelineParallel) && IsOptional(raw.headPort) && IsOptional(raw.waitSeconds)
    ensures Parse(Some(raw)).Some? ==>
              var p := Parse(Some(raw)).value;
              && p.role == raw.role.value && p.headHost == raw.headHost
              && raw.nodeCount.asInt == Some(p.nodeCount) && raw.gpusPerNode.asInt == Some(p.gpusPerNode)
              && (if raw.rank.Absent? then p.rank == 0 else raw.rank.asInt == Some(p.rank))
              && (if Overrides(raw.tensorParallel) then raw.tensorParallel.asInt == Some(p.tensorParallel)
                  else p.tensorParallel == p.gpusPerNode)
              && (if Overrides(raw.pipelineParallel) then raw.pipelineParallel.asInt == Some(p.pipelineParallel)
                  else p.pipelineParallel == p.nodeCount)
              && (if Overrides(raw.headPort) then raw.headPort.asInt == Some(p.headPort) else p.headPort == 6379)
              && (if Overrides(raw.waitSeconds) then raw.waitSeconds.asInt == Some(p.waitSeconds)
                  else p.waitSeconds == 1800)
  {}

  datatype Problem =
    | TooFewNodes | NoGpus | SizeMismatch | TensorSpansNodes | NoHeadHost | HeadNotRankZero | WorkerRankZero

  predicate Has(p: Params, problem: Problem) {
    match problem
    case TooFewNodes => p.nodeCount < 2
    case NoGpus => p.gpusPerNode < 1
    case SizeMismatch => p.WorldSize() != p.TotalGpus()
    case TensorSpansNodes => p.tensorParallel > p.gpusPerNode
    case NoHeadHost => p.role.Worker? && p.headHost == ""
    case HeadNotRankZero => p.role.Head? && p.rank != 0
    case WorkerRankZero => p.role.Worker? && p.rank == 0
  }

  function Checked(p: Params, problems: seq<Problem>, next: Problem): seq<Problem> {
    if Has(p, next) then problems + [next] else problems
  }

  function Problems(p: Params): (problems: seq<Problem>)
    ensures forall problem :: problem in problems <==> Has(p, problem)
  {
    var s1 := Checked(p, [], TooFewNodes);
    var s2 := Checked(p, s1, NoGpus);
    var s3 := Checked(p, s2, SizeMismatch);
    var s4 := Checked(p, s3, TensorSpansNodes);
    var s5 := Checked(p, s4, NoHeadHost);
    var s6 := Checked(p, s5, HeadNotRankZero);
    Checked(p, s6, WorkerRankZero)
  }

  method ValidateParams(p: Params) returns (problems: seq<Problem>)
    ensures problems == Problems(p)
  {
    problems := [];
    if p.nodeCount < 2 {
      problems := problems + [TooFewNodes];
    }
    if p.gpusPerNode < 1 {
      problems := problems + [NoGpus];
    }
    if p.WorldSize() != p.TotalGpus() {
      problems := problems + [SizeMismatch];
    }
    if p.tensorParallel > p.gpusPerNode {
      problems := problems + [TensorSpansNodes];
    }
    if !p.role.Head? && p.headHost == "" {
      problems := problems + [NoHeadHost];
    }
    if p.role.Head? && p.rank != 0 {
      problems := problems + [HeadNotRankZero];
    }
    if !p.role.Head? && p.rank == 0 {
      problems := problems + [WorkerRankZero];
    }
  }

  // The place of a problem in the list.
  function Place(problem: Problem): nat {
    match problem
    case TooFewNodes => 0
    case NoGpus => 1
    case SizeMismatch => 2
    case TensorSpansNodes => 3
    case NoHeadHost => 4
    case HeadNotRankZero => 5
    case WorkerRankZero => 6
  }

  ghost predicate Before(problems: seq<Problem>, n: nat) {
    && (forall i, j | 0 <= i < j < |problems| :: Place(problems[i]) < Place(problems[j]))
    && forall i | 0 <= i < |problems| :: Place(problems[i]) < n
  }

  lemma OneCheckMore(p: Params, problems: seq<Problem>, next: Problem)
    requires Before(problems, Place(next))
    ensures Before(Checked(p, problems, next), Place(next) + 1)
  {}

  lemma ProblemsAreInOrder(p: Params)
    ensures Before(Problems(p), 7)
  {
    var s1 := Checked(p, [], TooFewNodes);
    var s2 := Checked(p, s1, NoGpus);
    var s3 := Checked(p, s2, SizeMismatch);
    var s4 := Checked(p, s3, TensorSpansNodes);
    var s5 := Checked(p, s4, NoHeadHost);
    OneCheckMore(p, [], TooFewNodes);
    OneCheckMore(p, s1, NoGpus);
    OneCheckMore(p, s2, SizeMismatch);
    OneCheckMore(p, s3, TensorSpansNodes);
    OneCheckMore(p, s4, NoHeadHost);
    OneCheckMore(p, s5, HeadNotRankZero);
    OneCheckMore(p, Checked(p, s5, HeadNotRankZero), WorkerRankZero);
  }

  // Which problems are listed, and in which order.
  lemma ProblemsAreExact(p: Params)
    ensures var problems := Problems(p);
            && (TooFewNodes in problems <==> p.nodeCount < 2)
            && (NoGpus in problems <==> p.gpusPerNode < 1)
            && (SizeMismatch in problems <==> p.tensorParallel * p.pipelineParallel != p.nodeCount * p.gpusPerNode)
            && (TensorSpansNodes in problems <==> p.tensorParallel > p.gpusPerNode)
            && (NoHeadHost in problems <==> p.role == Worker && p.headHost == "")
            && (HeadNotRankZero in problems <==> p.role == Head && p.rank != 0)
            && (WorkerRankZero in problems <==> p.role == Worker && p.rank == 0)
            && forall i, j | 0 <= i < j < |problems| :: Place(problems[i]) < Place(problems[j])
  {
    ProblemsAreInOrder(p);
  }

  predicate Valid(p: Params) {
    Problems(p) == []
  }

  lemma ValidHasNoProblem(p: Params)
    ensures Valid(p) <==> forall problem :: !Has(p, problem)
  {
    if forall problem :: !Has(p, problem) {
      assert forall problem :: problem !in Problems(p);
    } else {
      var problem :| Has(p, problem);
      assert problem in Problems(p);
    }
  }

  // What a rank needs: at least two nodes with a GPU each, degrees that multiply to the
  // GPUs with tensor parallelism inside a node, and the head, only it, at rank 0.
  lemma ValidIff(p: Params)
    ensures Valid(p) <==>
              && p.nodeCount >= 2 && p.gpusPerNode >= 1
              && p.tensorParallel * p.pipelineParallel == p.nodeCount * p.gpusPerNode
              && p.tensorParallel <= p.gpusPerNode
              && (match p.role
                  case Head => p.rank == 0
                  case Worker => p.rank != 0 && p.headHost != "")
  {
    ValidHasNoProblem(p);
    if && !Has(p, TooFewNodes) && !Has(p, NoGpus) && !Has(p, SizeMismatch) && !Has(p, TensorSpansNodes)
       && !Has(p, NoHeadHost) && !Has(p, HeadNotRankZero) && !Has(p, WorkerRankZero)
    {
      forall problem: Problem ensures !Has(p, problem) {
        match problem
        case _ =>
      }
    }
  }

  lemma ProductGrows(a: int, b: int, c: int)
    requires a <= b && 0 <= c
    ensures a * c <= b * c
  {}

  // Validated degrees multiply to the reserved GPUs, but they can both be negative:
  // they are real degrees exactly when the tensor degree is at least 1, and then the
  // pipeline has at least one stage per node.
  lemma ValidatedDegrees(p: Params)
    requires Valid(p)
    ensures p.tensorParallel * p.pipelineParallel == p.nodeCount * p.gpusPerNode
    ensures p.tensorParallel >= 1 <==> p.pipelineParallel >= 1
    ensures p.tensorParallel >= 1 <==> p.pipelineParallel >= p.nodeCount
  {
    ValidHasNoProblem(p);
    assert !Has(p, TooFewNodes) && !Has(p, NoGpus) && !Has(p, SizeMismatch) && !Has(p, TensorSpansNodes);
    var t, k, n, g := p.tensorParallel, p.pipelineParallel, p.nodeCount, p.gpusPerNode;
    ProductGrows(1, g, n);
    assert t * k == n * g >= n;
    if t >= 1 {
      if k < n {
        if k >= 0 {
          ProductGrows(t, g, k);
          ProductGrows(k, n - 1, g);
        } else {
          ProductGrows(k, 0, t);
        }
      }
    } else if k >= 1 {
      ProductGrows(t, 0, k);
    }
  }

  lemma NegativeDegreesPassValidation()
    ensures Valid(Params(Head, 0, "", -1, -2, 1, 2, DEFAULT_RAY_PORT, DEFAULT_CLUSTER_WAIT_SECONDS))
  {}

  // Left to their defaults, the degrees always fit the reserved GPUs.
  lemma DefaultDegreesFit(raw: RawParams)
    requires Parse(Some(raw)).Some?
    requires raw.tensorParallel.Absent? || !raw.tensorParallel.truthy
    requires raw.pipelineParallel.Absent? || !raw.pipelineParallel.truthy
    ensures var p := Parse(Some(raw)).value; !Has(p, SizeMismatch) && !Has(p, TensorSpansNodes)
  {}

  // --------------------------------------------------------------- docker flags

  const PUBLISH: set<string> := {"-p", "--publish"}
  const SHM: set<string> := {"--shm-size"}
  const PARALLELISM: set<string> :=
    {"--tensor-parallel-size", "--pipeline-parallel-size", "--distributed-executor-backend"}
  const DISTRIBUTED_SHM_SIZE := "32g"

  function AfterDockerRun(flags: seq<string>): (k: nat)
    ensures k <= |flags|
  {
    if |flags| >= 2 && flags[0] == "docker" && flags[1] == "run" then 2 else 0
  }

  function ShmSet(flags: seq<string>, size: string): seq<string> {
    var out := DropPairs(SHM, flags);
    out[..AfterDockerRun(out)] + ["--shm-size", size] + out[AfterDockerRun(out)..]
  }

  method SetShmSize(flags: seq<string>, size: string) returns (r: seq<string>)
    ensures r == ShmSet(flags, size)
    ensures var out := DropPairs({"--shm-size"}, flags);
            r == if |out| >= 2 && out[0] == "docker" && out[1] == "run" then out[..2] + ["--shm-size", size] + out[2..]
                 else ["--shm-size", size] + out
  {
    var out := Strip(SHM, flags);
    var k := if |out| >= 2 && out[0] == "docker" && out[1] == "run" then 2 else 0;
    r := out[..k] + ["--shm-size", size] + out[k..];
  }

  lemma PairDropped(drop: set<string>, head: seq<string>, name: string, value: string, rest: seq<string>)
    requires name in drop && forall t | t in head :: t !in drop
    ensures DropPairs(drop, head + [name, value] + rest) == head + DropPairs(drop, rest)
  {
    DropThenRest(drop, head, [name, value] + rest);
    assert head + [name, value] + rest == head + ([name, value] + rest);
    assert ([name, value] + rest)[2..] == rest;
  }

  // The last size set wins; setting the same size again changes nothing.
  lemma ShmSetOverrides(flags: seq<string>, first: string, second: string)
    ensures ShmSet(ShmSet(flags, first), second) == ShmSet(flags, second)
  {
    var out := DropPairs(SHM, flags);
    var k := AfterDockerRun(out);
    PairDropped(SHM, out[..k], "--shm-size", first, out[k..]);
    NothingToDrop(SHM, out[k..]);
    assert DropPairs(SHM, ShmSet(flags, first)) == out[..k] + out[k..] == out;
  }

  lemma {:induction false} AbsentCountsZero(argv: seq<string>, t: string)
    requires t !in argv
    ensures multiset(argv)[t] == 0
  {}

  lemma ExactlyOneShm(flags: seq<string>, size: string)
    requires size != "--shm-size"
    ensures multiset(ShmSet(flags, size))["--shm-size"] == 1
  {
    var out := DropPairs(SHM, flags);
    var k := AfterDockerRun(out);
    AbsentCountsZero(out[..k], "--shm-size");
    AbsentCountsZero(out[k..], "--shm-size");
    assert multiset(["--shm-size", size])["--shm-size"] == 1;
    assert multiset(out[..k] + ["--shm-size", size] + out[k..])
        == multiset(out[..k]) + multiset(["--shm-size", size]) + multiset(out[k..]);
  }

  const ADDED: seq<Opt> := [
    Opt("--network", ["host"]), Opt("--ulimit", ["nofile=65536:524288"]), Opt("--entrypoint", ["sh"])]

  function DockerFlags(flags: seq<string>): seq<string> {
    ShmSet(DropPairs(PUBLISH, flags), DISTRIBUTED_SHM_SIZE) + Flatten(ADDED)
  }

  lemma {:induction false} ExceptTwice(a: set<string>, b: set<string>, opts: seq<Opt>)
    ensures Except(b, Except(a, opts)) == Except(a + b, opts)
  {
    if opts != [] {
      ExceptTwice(a, b, opts[1..]);
    }
  }

  lemma AddedFlags()
    ensures Flatten(ADDED) == ["--network", "host", "--ulimit", "nofile=65536:524288", "--entrypoint", "sh"]
  {
    FlattenThree(ADDED[0], ADDED[1], ADDED[2]);
    assert ADDED == [ADDED[0], ADDED[1], ADDED[2]];
  }

  // Host networking and published ports exclude each other: whatever the input, no
  // publish option is left.
  lemma NoPortIsPublished(flags: seq<string>)
    ensures forall t | t in DockerFlags(flags) :: t != "-p" && t != "--publish"
  {
    AddedFlags();
    var out := DropPairs(SHM, DropPairs(PUBLISH, flags));
    var k := AfterDockerRun(out);
    forall t | t in DockerFlags(flags) ensures t != "-p" && t != "--publish" {
      assert t in out[..k] || t in ["--shm-size", DISTRIBUTED_SHM_SIZE] || t in out[k..] || t in Flatten(ADDED);
      assert t in out[..k] || t in out[k..] ==> t in out;
    }
  }

  lemma SharedMemoryIsGivenOnce(flags: seq<string>)
    ensures multiset(DockerFlags(flags))["--shm-size"] == 1
  {
    AddedFlags();
    var shm := ShmSet(DropPairs(PUBLISH, flags), DISTRIBUTED_SHM_SIZE);
    ExactlyOneShm(DropPairs(PUBLISH, flags), DISTRIBUTED_SHM_SIZE);
    AbsentCountsZero(Flatten(ADDED), "--shm-size");
    assert multiset(shm + Flatten(ADDED)) == multiset(shm) + multiset(Flatten(ADDED));
  }

  lemma ShmAfterRun(rest: seq<string>, size: string)
    requires forall t | t in rest :: t !in SHM
    ensures ShmSet(["docker", "run"] + rest, size) == ["docker", "run"] + (["--shm-size", size] + rest)
  {
    var out := ["docker", "run"] + rest;
    NothingToDrop(SHM, out);
    assert out[..2] == ["docker", "run"] && out[2..] == rest;
    Regroup(["docker", "run"], ["--shm-size", size], rest);
  }

  lemma {:induction false} ShmIgnoresOld(flags: seq<string>, size: string)
    ensures ShmSet(DropPairs(SHM, flags), size) == ShmSet(flags, size)
  {
    DropIsIdempotent(SHM, flags);
  }

  lemma ShmOnOptions(opts: seq<Opt>, size: string)
    requires Droppable(SHM, opts)
    ensures ShmSet(["docker", "run"] + Flatten(opts), size)
         == ["docker", "run"] + Flatten([Opt("--shm-size", [size])] + Except(SHM, opts))
  {
    var run, shm, kept := ["docker", "run"], Opt("--shm-size", [size]), Except(SHM, opts);
    calc {
      ShmSet(run + Flatten(opts), size);
      { ShmIgnoresOld(run + Flatten(opts), size); DropRemovesOptionsAfter(SHM, run, opts); }
      ShmSet(run + Flatten(kept), size);
      { DropRemovesOptions(SHM, opts); ShmAfterRun(Flatten(kept), size); }
      run + (["--shm-size", size] + Flatten(kept));
      { assert ["--shm-size", size] == Tokens(shm); }
      run + (Tokens(shm) + Flatten(kept));
      { FlattenOne(shm); FlattenConcat([shm], kept); }
      run + Flatten([shm] + kept);
    }
  }

  lemma DockerFlagsAre(opts: seq<Opt>)
    requires Droppable(PUBLISH, opts) && Droppable(SHM, opts)
    ensures DockerFlags(["docker", "run"] + Flatten(opts))
         == ["docker", "run"]
            + Flatten([Opt("--shm-size", [DISTRIBUTED_SHM_SIZE])] + Except(PUBLISH + SHM, opts) + ADDED)
  {
    DropRemovesOptionsAfter(PUBLISH, ["docker", "run"], opts);
    ShmOnOptions(Except(PUBLISH, opts), DISTRIBUTED_SHM_SIZE);
    ExceptTwice(PUBLISH, SHM, opts);
    FlattenConcat([Opt("--shm-size", [DISTRIBUTED_SHM_SIZE])] + Except(PUBLISH + SHM, opts), ADDED);
  }

  // Every other docker option survives, in order.
  lemma DockerFlagsKeepTheRest(opts: seq<Opt>)
    requires Droppable({"-p", "--publish"}, opts) && Droppable({"--shm-size"}, opts)
    ensures DockerFlags(["docker", "run"] + Flatten(opts))
         == ["docker", "run"]
            + Flatten([Opt("--shm-size", ["32g"])] + Except({"-p", "--publish", "--shm-size"}, opts)
                      + [Opt("--network", ["host"]), Opt("--ulimit", ["nofile=65536:524288"]),
                         Opt("--entrypoint", ["sh"])])
  {
    assert PUBLISH + SHM == {"-p", "--publish", "--shm-size"};
    DockerFlagsAre(opts);
  }

  // ----------------------------------------------------------------- the program

  datatype Step =
    | BootstrapRay
    | PinNic(headHost: string)
    | StartRayHead(port: int, gpus: int)
    | JoinRay(host: string, port: int, gpus: int)
    | WaitForGpus(expected: int, seconds: int)
    | Serve(command: string)

  // The head's steps are chained with &&; a worker retries its join until a deadline.
  datatype Program = HeadProgram(steps: seq<Step>) | WorkerProgram(setup: seq<Step>, join: Step, seconds: int)

  datatype Command = Command(flags: seq<string>, image: string, program: Program)

  function DistributedOptions(p: Params): seq<Opt> {
    [Opt("--tensor-parallel-size", [Str(p.tensorParallel)]),
     Opt("--pipeline-parallel-size", [Str(p.pipelineParallel)]),
     Opt("--distributed-executor-backend", ["ray"])]
  }

  function HeadArgv(entry: string, serveArgv: seq<string>, p: Params): seq<string> {
    [entry] + DropPairs(PARALLELISM, serveArgv) + Flatten(DistributedOptions(p))
  }

  function ProgramOf(p: Params, serveArgv: seq<string>, entry: string): Program {
    match p.role
    case Head =>
      HeadProgram([BootstrapRay, PinNic(p.headHost), StartRayHead(p.headPort, p.gpusPerNode),
                   WaitForGpus(p.TotalGpus(), p.waitSeconds), Serve(Join(HeadArgv(entry, serveArgv, p)))])
    case Worker =>
      WorkerProgram([BootstrapRay, PinNic(p.headHost)], JoinRay(p.headHost, p.headPort, p.gpusPerNode), p.waitSeconds)
  }

  method BuildDockerCommand(flags: seq<string>, image: string, serveArgv: seq<string>, p: Params, entry: string)
    returns (c: Command)
    ensures c == Command(DockerFlags(flags), image, ProgramOf(p, serveArgv, entry))
  {
    var unpublished := Strip(PUBLISH, flags);
    var sized := SetShmSize(unpublished, DISTRIBUTED_SHM_SIZE);
    AddedFlags();
    var all := sized + ["--network", "host"] + ["--ulimit", "nofile=65536:524288"] + ["--entrypoint", "sh"];
    assert all == sized + Flatten(ADDED);
    if p.role.Head? {
      var stripped := Strip(PARALLELISM, serveArgv);
      var argv := [entry] + stripped + Flatten(DistributedOptions(p));
      c := Command(all, image, HeadProgram([BootstrapRay, PinNic(p.headHost), StartRayHead(p.headPort, p.gpusPerNode),
                                            WaitForGpus(p.TotalGpus(), p.waitSeconds), Serve(Join(argv))]));
    } else {
      c := Command(all, image, WorkerProgram([BootstrapRay, PinNic(p.headHost)],
                                             JoinRay(p.headHost, p.headPort, p.gpusPerNode), p.waitSeconds));
    }
  }

  lemma DistributedFlags(p: Params)
    ensures Flatten(DistributedOptions(p))
         == ["--tensor-parallel-size", Str(p.tensorParallel), "--pipeline-parallel-size", Str(p.pipelineParallel),
             "--distributed-executor-backend", "ray"]
  {
    var d := DistributedOptions(p);
    FlattenThree(d[0], d[1], d[2]);
  }

  lemma LettersAreSafe(s: string)
    requires s != "" && forall c | c in s :: 'a' <= c <= 'z' || c == '-'
    ensures Safe(s)
  {}

  lemma TensorIsSafe()
    ensures Safe("--tensor-parallel-size")
  {
    LettersAreSafe("--tensor-parallel-size");
  }

  lemma PipelineIsSafe()
    ensures Safe("--pipeline-parallel-size")
  {
    LettersAreSafe("--pipeline-parallel-size");
  }

  lemma ExecutorIsSafe()
    ensures Safe("--distributed-executor-backend") && Safe("ray")
  {
    LettersAreSafe("--distributed-executor-backend");
    LettersAreSafe("ray");
  }

  lemma NumeralsAreSafe(n: int)
    ensures Safe(Str(n))
  {
    forall c | c in Str(n) ensures Literal(c) {}
  }

  lemma DistributedFlagsAreSafe(p: Params)
    ensures forall t | t in Flatten(DistributedOptions(p)) :: Safe(t)
  {
    DistributedFlags(p);
    TensorIsSafe();
    PipelineIsSafe();
    ExecutorIsSafe();
    NumeralsAreSafe(p.tensorParallel);
    NumeralsAreSafe(p.pipelineParallel);
  }

  // What the shell of the head container runs as the server.
  function ServedWords(entry: string, serveArgv: seq<string>, p: Params): Option<seq<string>> {
    Words(Join(HeadArgv(entry, serveArgv, p)))
  }

  lemma ServedAfterEntry(entry: string, serveArgv: seq<string>, p: Params)
    requires Complete(entry)
    ensures Words(entry).Some?
    ensures ServedWords(entry, serveArgv, p)
         == After(Words(entry).value, Words(Join(DropPairs(PARALLELISM, serveArgv) + Flatten(DistributedOptions(p)))))
  {
    var kept, added := DropPairs(PARALLELISM, serveArgv), Flatten(DistributedOptions(p));
    DistributedFlags(p);
    Regroup([entry], kept, added);
    TailOfConcat([entry], kept + added);
    WordsAfter(entry, Join(kept + added));
  }

  // The head's script hands the arguments to a shell: it runs the entry with exactly the
  // kept and added arguments if and only if every kept one is safe, that is, non-empty
  // and free of separators, quotes, operators and expansion characters. (What an
  // expansion character turns into depends on the container's files and variables;
  // then `Words` says nothing.)
  lemma ServedWordsAreExact(entry: string, serveArgv: seq<string>, p: Params)
    requires Complete(entry)
    ensures Words(entry).Some?
    ensures var kept := DropPairs(PARALLELISM, serveArgv);
            (forall a | a in kept :: Safe(a))
              <==> ServedWords(entry, serveArgv, p)
                   == Some(Words(entry).value + (kept + Flatten(DistributedOptions(p))))
  {
    var kept, added := DropPairs(PARALLELISM, serveArgv), Flatten(DistributedOptions(p));
    ServedAfterEntry(entry, serveArgv, p);
    DistributedFlags(p);
    DistributedFlagsAreSafe(p);
    var front := kept + added[..5];
    assert kept + added == front + ["ray"];
    ExecutorIsSafe();
    SurvivesIffSafe(front, "ray");
    assert forall a | a in added[..5] :: a in added;
    assert (forall a | a in front :: Safe(a)) <==> forall a | a in kept :: Safe(a) by {
      assert forall a | a in kept :: a in front;
    }
    PrefixCancels(Words(entry).value, kept + added, Words(Join(kept + added)));
  }

  lemma PrefixCancels(before: seq<string>, argv: seq<string>, words: Option<seq<string>>)
    ensures After(before, words) == Some(before + argv) <==> words == Some(argv)
  {
    if words.Some? && before + words.value == before + argv {
      assert (before + words.value)[|before|..] == words.value;
      assert (before + argv)[|before|..] == argv;
    }
  }

  // python3 -m vllm.entrypoints.openai.api_server
  const ENTRY_MODULE := "vllm." + "entrypoints." + "openai." + "api_server"
  const DISTRIBUTED_VLLM_ENTRY := "python3" + " " + ("-m" + " " + ENTRY_MODULE)

  // The default entry is three words.
  lemma DefaultEntryIsComplete()
    ensures Complete(DISTRIBUTED_VLLM_ENTRY)
    ensures Words(DISTRIBUTED_VLLM_ENTRY) == Some(["python3", "-m", ENTRY_MODULE])
  {
    var argv := ["python3", "-m", ENTRY_MODULE];
    EntryIsSafe();
    assert argv[1..] == ["-m", ENTRY_MODULE] && argv[1..][1..] == [ENTRY_MODULE];
    assert Join(argv[1..]) == "-m" + " " + ENTRY_MODULE;
    SafeWordsSurvive(argv);
  }

  lemma EntryIsSafe()
    ensures Safe("python3") && Safe("-m") && Safe(ENTRY_MODULE)
  {
    FirstPieces();
    MiddlePieces();
    LastPieces();
    SafeConcat("entry", "points.");
    assert "entry" + "points." == "entrypoints.";
    SafeConcat("vllm.", "entrypoints.");
    SafeConcat("vllm." + "entrypoints.", "openai.");
    SafeConcat("vllm." + "entrypoints." + "openai.", "api_server");
  }

  lemma FirstPieces()
    ensures Safe("python3") && Safe("-m")
  {}

  lemma MiddlePieces()
    ensures Safe("vllm.") && Safe("entry") && Safe("points.")
  {}

  lemma LastPieces()
    ensures Safe("openai.") && Safe("api_server")
  {}

  lemma SafeConcat(a: string, b: string)
    requires Safe(a) && Safe(b)
    ensures Safe(a + b)
  {}

  // The media limit of vision models, in the form given to newer images and without
  // its blank: the server gets neither.
  const LIMIT := "--limit-mm-per-prompt"

  lemma QuotedLimit()
    ensures Words("{\"image\":4}") == Some(["{image:4}"])
  {
    QuotedPartIsUnquoted("{", "image", ":4}");
    assert "{" + ("\"" + "image" + "\"") + ":4}" == "{\"image\":4}";
    assert "{" + "image" + ":4}" == "{image:4}";
  }

  lemma VisionLimitIsTornApart(entry: string, limit: string, p: Params)
    requires Complete(entry) && (limit == "{\"image\": 4}" || limit == "{\"image\":4}")
    ensures ServedWords(entry, [LIMIT, limit], p)
         != Some(Words(entry).value + ([LIMIT, limit] + Flatten(DistributedOptions(p))))
  {
    NothingToDrop(PARALLELISM, [LIMIT, limit]);
    assert limit[1] == '\"' && limit[1] in limit;
    assert !Literal(limit[1]);
    assert limit in [LIMIT, limit];
    ServedWordsAreExact(entry, [LIMIT, limit], p);
  }

  // An option written --name=value is not recognised as one to strip.
  lemma JoinedFormSurvives(degree: string)
    ensures DropPairs(PARALLELISM, ["--tensor-parallel-size=" + degree]) == ["--tensor-parallel-size=" + degree]
  {
    var joined := "--tensor-parallel-size=" + degree;
    assert |joined| >= 23 && joined[2] == 't' && "--pipeline-parallel-size"[2] == 'p';
    assert "--distributed-executor-backend"[2] == 'd';
    NothingToDrop(PARALLELISM, [joined]);
  }

  // The options the head's server ends up with.
  function ServedOptions(opts: seq<Opt>, p: Params): seq<Opt> {
    Except(PARALLELISM, opts) + DistributedOptions(p)
  }

  lemma DistributedMeaning(m: seq<Opt>, p: Params)
    ensures Meaning(m + DistributedOptions(p))
         == Meaning(m)["--tensor-parallel-size" := [Str(p.tensorParallel)]]
                      ["--pipeline-parallel-size" := [Str(p.pipelineParallel)]]
                      ["--distributed-executor-backend" := ["ray"]]
  {
    var d := DistributedOptions(p);
    MeaningOfLast(m, d[0]);
    MeaningOfLast(m + [d[0]], d[1]);
    MeaningOfLast(m + [d[0]] + [d[1]], d[2]);
    assert m + d == m + [d[0]] + [d[1]] + [d[2]];
  }

  lemma DistributedOccurOnce(name: string, p: Params)
    requires name in PARALLELISM
    ensures Occurrences(name, DistributedOptions(p)) == 1
  {
    var d := DistributedOptions(p);
    OccurrencesThree(name, d[0], d[1], d[2]);
  }

  lemma EachDegreeOnce(name: string, opts: seq<Opt>, p: Params)
    requires name in PARALLELISM
    ensures Occurrences(name, ServedOptions(opts, p)) == 1
  {
    var kept := Except(PARALLELISM, opts);
    OccurrencesConcat(name, kept, DistributedOptions(p));
    NoOccurrence(name, kept);
    DistributedOccurOnce(name, p);
  }

  lemma OthersInOrder(opts: seq<Opt>, p: Params)
    ensures Except(PARALLELISM, ServedOptions(opts, p)) == Except(PARALLELISM, opts)
  {
    var kept, added := Except(PARALLELISM, opts), DistributedOptions(p);
    ExceptConcat(PARALLELISM, kept, added);
    ExceptTwice(PARALLELISM, PARALLELISM, opts);
    assert PARALLELISM + PARALLELISM == PARALLELISM;
    NothingOf(PARALLELISM, added);
  }

  predicate SafeOptions(opts: seq<Opt>) {
    forall o | o in opts :: Safe(o.name) && forall v | v in o.values :: Safe(v)
  }

  lemma ServedFlat(entry: string, opts: seq<Opt>, p: Params)
    requires Droppable(PARALLELISM, opts) && SafeOptions(Except(PARALLELISM, opts)) && Complete(entry)
    ensures Words(entry).Some?
    ensures ServedWords(entry, Flatten(opts), p) == Some(Words(entry).value + Flatten(ServedOptions(opts, p)))
  {
    var kept := Except(PARALLELISM, opts);
    DropRemovesOptions(PARALLELISM, opts);
    FlattenIsSafe(kept);
    ServedWordsAreExact(entry, Flatten(opts), p);
    FlattenConcat(kept, DistributedOptions(p));
  }

  // The rewrite preserves meaning: for every well-formed server argv of safe words the
  // head runs the same entry with the same options in the same order, outside the
  // three parallelism options; each of those occurs exactly once, with the value of
  // the topology.
  lemma HeadServesTheSameModel(entry: string, opts: seq<Opt>, p: Params)
    requires var degrees := {"--tensor-parallel-size", "--pipeline-parallel-size", "--distributed-executor-backend"};
             Droppable(degrees, opts) && SafeOptions(Except(degrees, opts)) && Complete(entry)
    ensures Words(entry).Some?
    ensures ServedWords(entry, Flatten(opts), p) == Some(Words(entry).value + Flatten(ServedOptions(opts, p)))
    ensures var degrees := {"--tensor-parallel-size", "--pipeline-parallel-size", "--distributed-executor-backend"};
            && Except(degrees, ServedOptions(opts, p)) == Except(degrees, opts)
            && Meaning(ServedOptions(opts, p)) - degrees == Meaning(opts) - degrees
            && forall name | name in degrees :: Occurrences(name, ServedOptions(opts, p)) == 1
    ensures ServedDegrees(ServedOptions(opts, p)) == Some((p.tensorParallel, p.pipelineParallel))
    ensures var m := Meaning(ServedOptions(opts, p));
            "--distributed-executor-backend" in m && m["--distributed-executor-backend"] == ["ray"]
  {
    ServedFlat(entry, opts, p);
    OthersInOrder(opts, p);
    ServedOptionsMean(opts, p);
    forall name | name in PARALLELISM ensures Occurrences(name, ServedOptions(opts, p)) == 1 {
      EachDegreeOnce(name, opts, p);
    }
  }

  // The degrees vLLM reads off its options.
  function ServedDegrees(opts: seq<Opt>): Option<(int, int)> {
    var m := Meaning(opts);
    if && "--tensor-parallel-size" in m && |m["--tensor-parallel-size"]| == 1
       && "--pipeline-parallel-size" in m && |m["--pipeline-parallel-size"]| == 1
    then Some((Int(m["--tensor-parallel-size"][0]), Int(m["--pipeline-parallel-size"][0])))
    else None
  }

  lemma ServedOptionsMean(opts: seq<Opt>, p: Params)
    ensures Meaning(ServedOptions(opts, p)) - PARALLELISM == Meaning(opts) - PARALLELISM
    ensures ServedDegrees(ServedOptions(opts, p)) == Some((p.tensorParallel, p.pipelineParallel))
    ensures var m := Meaning(ServedOptions(opts, p));
            "--distributed-executor-backend" in m && m["--distributed-executor-backend"] == ["ray"]
  {
    ExceptMeans(PARALLELISM, opts);
    DistributedMeaning(Except(PARALLELISM, opts), p);
    StrRoundTrip(p.tensorParallel);
    StrRoundTrip(p.pipelineParallel);
  }

  lemma {:induction false} FlattenIsSafe(opts: seq<Opt>)
    requires SafeOptions(opts)
    ensures forall t | t in Flatten(opts) :: Safe(t)
  {
    if opts != [] {
      assert opts[0] in opts && forall o | o in opts[1..] :: o in opts;
      FlattenIsSafe(opts[1..]);
    }
  }

  lemma {:induction false} NothingOf(drop: set<string>, opts: seq<Opt>)
    requires forall o | o in opts :: o.name in drop
    ensures Except(drop, opts) == []
  {
    if opts != [] {
      assert opts[0] in opts;
      NothingOf(drop, opts[1..]);
    }
  }

  // ------------------------------------------------------- from the payload to docker

  datatype Launch = SingleNode | Rejected(problems: seq<Problem>) | Distributed(params: Params, command: Command)

  // The distributed branch of start_runtime (domain/inference.py).
  method LaunchCommand(payload: Option<RawParams>, flags: seq<string>, image: string, serveArgv: seq<string>,
                       entry: string)
    returns (r: Launch)
    ensures r.SingleNode? <==> Parse(payload).None?
    ensures r.Rejected? ==> r.problems == Problems(Parse(payload).value) != []
    ensures r.Distributed? ==> Parse(payload) == Some(r.params) && Valid(r.params)
    ensures r.Distributed? ==> r.command == Command(DockerFlags(flags), image, ProgramOf(r.params, serveArgv, entry))
  {
    var params := Parse(payload);
    if params.None? {
      return SingleNode;
    }
    var problems := ValidateParams(params.value);
    if problems != [] {
      return Rejected(problems);
    }
    var command := BuildDockerCommand(flags, image, serveArgv, params.value, entry);
    return Distributed(params.value, command);
  }

  // The head waits for exactly the GPUs that the server it then starts will claim.
  lemma {:induction false} HeadAwaitsWhatItServes(p: Params, entry: string, opts: seq<Opt>)
    requires Valid(p) && p.role.Head?
    ensures var steps := ProgramOf(p, Flatten(opts), entry).steps;
            var served := ServedDegrees(ServedOptions(opts, p));
            && steps[3].WaitForGpus? && served.Some?
            && steps[3].expected == served.value.0 * served.value.1 == p.nodeCount * p.gpusPerNode
  {
    ServedOptionsMean(opts, p);
    ValidatedDegrees(p);
  }
}
