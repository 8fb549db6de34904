/** Host ports for a pod's user-exposed TCP ports (application/services.py,
    domain/ssh.py). Random draws and socket probes are inputs. */
module Ports {
  import opened Common

  const MAX_PORTS := 10

  // ------------------------------------------------------- the normalised request

  predicate Wanted(p: Option<int>) {
    p.Some? && 1 <= p.value <= 65535 && p.value != 22
  }

  // Every acceptable port of the request once, in order of first mention.
  function Distinct(raw: seq<Option<int>>): seq<int> {
    if raw == [] then []
    else
      var init, p := Distinct(raw[..|raw| - 1]), raw[|raw| - 1];
      if Wanted(p) && p.value !in init then init + [p.value] else init
  }

  function AtMost(s: seq<int>, n: nat): seq<int> {
    if |s| <= n then s else s[..n]
  }

  lemma {:induction false} DistinctIsExact(raw: seq<Option<int>>)
    ensures NoDuplicates(Distinct(raw))
    ensures forall p :: p in Distinct(raw) <==> Some(p) in raw && 1 <= p <= 65535 && p != 22
  {
    if raw != [] {
      var last := raw[|raw| - 1];
      DistinctIsExact(raw[..|raw| - 1]);
      assert raw == raw[..|raw| - 1] + [last];
    }
  }

  // Each is where the request mentions it first: whenever one stands before another,
  // it is mentioned before the other is.
  ghost predicate MentionedBefore(raw: seq<Option<int>>, p: int, q: int) {
    exists k :: 0 <= k < |raw| && raw[k] == Some(p) && Some(q) !in raw[..k + 1]
  }

  lemma {:induction false} DistinctKeepsOrder(raw: seq<Option<int>>, i: nat, j: nat)
    requires i < j < |Distinct(raw)|
    ensures MentionedBefore(raw, Distinct(raw)[i], Distinct(raw)[j])
  {
    var init := raw[..|raw| - 1];
    var before := Distinct(init);
    DistinctIsExact(init);
    if j < |before| {
      DistinctKeepsOrder(init, i, j);
      var k :| 0 <= k < |init| && init[k] == Some(before[i]) && Some(before[j]) !in init[..k + 1];
      assert raw[..k + 1] == init[..k + 1];
    } else {
      assert before[i] in before;
      var k :| 0 <= k < |init| && init[k] == Some(before[i]);
      var last := Distinct(raw)[j];
      assert last !in before && raw[|raw| - 1] == Some(last);
      assert Some(last) !in init;
      assert forall x | x in raw[..k + 1] :: x in init;
    }
  }

  lemma {:induction false} DistinctGrows(raw: seq<Option<int>>, i: nat)
    requires i <= |raw|
    ensures Distinct(raw[..i]) <= Distinct(raw)
    decreases |raw| - i
  {
    if i < |raw| {
      assert raw[..i + 1][..i] == raw[..i];
      DistinctGrows(raw, i + 1);
    } else {
      assert raw[..i] == raw;
    }
  }

  // `None` is an entry that does not convert to an integer.
  method NormalisePorts(raw: seq<Option<int>>) returns (requested: seq<int>)
    ensures requested == AtMost(Distinct(raw), MAX_PORTS)
    ensures |requested| <= 10 && NoDuplicates(requested)
    ensures forall p | p in requested :: 1 <= p <= 65535 && p != 22 && Some(p) in raw
    ensures forall p | 1 <= p <= 65535 && p != 22 && Some(p) in raw && p !in requested :: |requested| == 10
  {
    var seen: set<int> := {};
    requested := [];
    var i := 0;
    DistinctIsExact(raw);
    while i < |raw|
      invariant i <= |raw| && |requested| < MAX_PORTS
      invariant requested == Distinct(raw[..i]) && seen == Elements(requested)
    {
      assert raw[..i + 1][..i] == raw[..i];
      DistinctGrows(raw, i + 1);
      var p := raw[i];
      if p.Some? {
        if 1 <= p.value <= 65535 && p.value != 22 && p.value !in seen {
          seen := seen + {p.value};
          requested := requested + [p.value];
        }
        if |requested| >= MAX_PORTS {
          break;
        }
      }
      i := i + 1;
    }
    assert i == |raw| ==> raw[..i] == raw;
    forall p | p in requested ensures 1 <= p <= 65535 && p != 22 && Some(p) in raw {
      assert p in Distinct(raw);
    }
  }

  // ----------------------------------------------------------------- one free port

  // What one call sees: the ports docker publishes, which ports can be bound, and
  // the numbers secrets.randbelow(end - start) has drawn so far.
  datatype Probe = Probe(dockerBound: set<int>, bindable: int -> bool, draws: seq<nat>)

  predicate Available(probe: Probe, port: int) {
    port !in probe.dockerBound && probe.bindable(port)
  }

  ghost predicate DrawsBelow(n: int, probe: Probe) {
    forall i | 0 <= i < |probe.draws| :: probe.draws[i] < n
  }

  // Drawing: still looking when the draws end.
  datatype Choice = Chosen(port: int) | RangeExhausted | Drawing

  ghost predicate TriedBefore(start: int, probe: Probe, n: nat, port: int)
    requires n <= |probe.draws|
  {
    exists i | 0 <= i < n :: start + probe.draws[i] == port
  }

  ghost predicate NoneAvailable(start: int, probe: Probe, n: nat)
    requires n <= |probe.draws|
  {
    forall i | 0 <= i < n :: !Available(probe, start + probe.draws[i])
  }

  ghost predicate IsFirstAvailable(start: int, probe: Probe, port: int) {
    exists i | 0 <= i < |probe.draws| ::
      start + probe.draws[i] == port && Available(probe, port) && NoneAvailable(start, probe, i)
  }

  // No port of [start, end) can be had.
  ghost predicate Exhausted(start: int, end: int, probe: Probe) {
    forall p | start <= p < end :: !Available(probe, p)
  }

  ghost predicate AllTried(start: int, end: int, probe: Probe) {
    forall p | start <= p < end :: TriedBefore(start, probe, |probe.draws|, p)
  }

  // `tried` is what the first n draws tried, none of it available.
  ghost predicate Tried(start: int, end: int, probe: Probe, n: nat, tried: set<int>) {
    && n <= |probe.draws|
    && (forall p | p in tried :: start <= p < end)
    && (forall p :: p in tried <==> TriedBefore(start, probe, n, p))
    && NoneAvailable(start, probe, n)
  }

  // The first port drawn from the i-th draw on that can be had.
  function FirstAvailable(start: int, probe: Probe, i: nat): Option<int>
    requires i <= |probe.draws|
    decreases |probe.draws| - i
  {
    if i == |probe.draws| then None
    else if Available(probe, start + probe.draws[i]) then Some(start + probe.draws[i])
    else FirstAvailable(start, probe, i + 1)
  }

  ghost function Choose(start: int, end: int, probe: Probe): Choice {
    match FirstAvailable(start, probe, 0)
    case Some(p) => Chosen(p)
    case None => if AllTried(start, end, probe) then RangeExhausted else Drawing
  }

  // The inner loop of the port map: choose until the port is not in `used`.
  ghost function ChooseAgain(start: int, end: int, used: set<int>, probes: seq<Probe>): Choice {
    if probes == [] then Drawing
    else
      var c := Choose(start, end, probes[0]);
      if c.Chosen? && c.port in used then ChooseAgain(start, end, used, probes[1..]) else c
  }

  lemma {:induction false} FirstAvailableMeans(start: int, probe: Probe, i: nat)
    requires i <= |probe.draws|
    ensures var o := FirstAvailable(start, probe, i);
            if o.Some? then
              exists j | i <= j < |probe.draws| :: start + probe.draws[j] == o.value && Available(probe, o.value)
                && forall h | i <= h < j :: !Available(probe, start + probe.draws[h])
            else forall h | i <= h < |probe.draws| :: !Available(probe, start + probe.draws[h])
    decreases |probe.draws| - i
  {
    if i < |probe.draws| {
      if Available(probe, start + probe.draws[i]) {
        assert FirstAvailable(start, probe, i) == Some(start + probe.draws[i]);
      } else {
        FirstAvailableMeans(start, probe, i + 1);
      }
    }
  }

  // choose_free_port raises exactly when every port of [start, end) was drawn and
  // none can be had; otherwise it returns the first drawn port that can.
  method ChooseFreePort(start: int, end: int, probe: Probe) returns (r: Choice)
    requires DrawsBelow(end - start, probe)
    ensures r == Choose(start, end, probe)
    ensures r.Chosen? ==> start <= r.port < end && IsFirstAvailable(start, probe, r.port)
    ensures r.Chosen? ==> r.port !in probe.dockerBound && probe.bindable(r.port)
    ensures r.RangeExhausted? <==> Exhausted(start, end, probe) && AllTried(start, end, probe)
    ensures r.RangeExhausted? ==> forall p | start <= p < end :: p in probe.dockerBound || !probe.bindable(p)
    ensures r.Drawing? ==> NoneAvailable(start, probe, |probe.draws|) && !AllTried(start, end, probe)
  {
    var tried: set<int> := {};
    var n := 0;
    while |tried| < end - start
      invariant Tried(start, end, probe, n, tried)
      decreases |probe.draws| - n
    {
      if n == |probe.draws| {
        SomeUntried(start, end, probe, tried);
        FirstAvailableMeans(start, probe, 0);
        return Drawing;
      }
      var port := start + probe.draws[n];
      if port !in tried && Available(probe, port) {
        ChosenHere(start, probe, n);
        return Chosen(port);
      }
      TriedNext(start, end, probe, n, tried);
      tried, n := tried + {port}, n + 1;
    }
    NoneLeft(start, end, probe, n, tried);
    FirstAvailableMeans(start, probe, 0);
    forall p | start <= p < end ensures p in probe.dockerBound || !probe.bindable(p) {
      assert !Available(probe, p);
    }
    return RangeExhausted;
  }

  lemma ChosenHere(start: int, probe: Probe, n: nat)
    requires n < |probe.draws| && NoneAvailable(start, probe, n) && Available(probe, start + probe.draws[n])
    ensures FirstAvailable(start, probe, 0) == Some(start + probe.draws[n])
  {
    FirstAvailableMeans(start, probe, 0);
  }

  // Fewer than end - start tried ports leave one untried.
  lemma SomeUntried(start: int, end: int, probe: Probe, tried: set<int>)
    requires Tried(start, end, probe, |probe.draws|, tried) && |tried| < end - start
    ensures !AllTried(start, end, probe)
  {
    var range := Range(start, end);
    if range - tried == {} {
      SubsetCardinality(range, tried);
    } else {
      var p := Pick(range - tried);
      assert !TriedBefore(start, probe, |probe.draws|, p);
    }
  }

  // Pigeonhole: end - start distinct tried ports are all there are.
  lemma NoneLeft(start: int, end: int, probe: Probe, n: nat, tried: set<int>)
    requires Tried(start, end, probe, n, tried) && |tried| >= end - start
    ensures Exhausted(start, end, probe) && AllTried(start, end, probe)
  {
    var range := Range(start, end);
    assert tried <= range;
    SubsetCardinality(tried, range);
    forall p | start <= p < end ensures !Available(probe, p) && TriedBefore(start, probe, |probe.draws|, p) {
      assert p in range;
      assert TriedBefore(start, probe, n, p);
    }
  }

  lemma TriedNext(start: int, end: int, probe: Probe, n: nat, tried: set<int>)
    requires n < |probe.draws| && DrawsBelow(end - start, probe) && Tried(start, end, probe, n, tried)
    requires start + probe.draws[n] in tried || !Available(probe, start + probe.draws[n])
    ensures Tried(start, end, probe, n + 1, tried + {start + probe.draws[n]})
  {
    var port := start + probe.draws[n];
    assert !Available(probe, port) by {
      if port in tried {
        assert TriedBefore(start, probe, n, port);
      }
    }
    forall p | p in tried + {port} ensures TriedBefore(start, probe, n + 1, p) {
      var i :| (0 <= i < n && start + probe.draws[i] == p) || (p == port && i == n);
      assert start + probe.draws[i] == p;
    }
  }

  // -------------------------------------------------------------------- the port map

  ghost predicate Injective(m: map<int, int>) {
    forall a, b | a in m && b in m && a != b :: m[a] != m[b]
  }

  predicate InRange(start: int, end: int, port: int) {
    start <= port <= end
  }

  ghost predicate CameFrom(start: int, end: int, probes: seq<Probe>, host: int) {
    start <= host < end && exists k | 0 <= k < |probes| :: IsFirstAvailable(start, probes[k], host)
  }

  // Same number where the host port is in range and free, else a random one.
  ghost predicate WellPlaced(start: int, end: int, free: int -> bool, probes: seq<Probe>, m: map<int, int>, c: int)
    requires c in m
  {
    || (m[c] == c && start <= c <= end && free(c))
    || CameFrom(start, end, probes, m[c])
  }

  // A container port loses its own number only when that is out of range, busy or
  // already given to an earlier one.
  ghost predicate KeepsItsNumber(start: int, end: int, free: int -> bool, requested: seq<int>, m: map<int, int>, i: nat)
    requires i < |requested| && forall j | 0 <= j <= i :: requested[j] in m
  {
    var c := requested[i];
    start <= c <= end && free(c) && (forall j | 0 <= j < i :: m[requested[j]] != c) ==> m[c] == c
  }

  // The map after the first k requested ports.
  ghost predicate SoundMap(start: int, end: int, free: int -> bool, probes: seq<Probe>, requested: seq<int>,
                           m: map<int, int>, k: nat) {
    && k <= |requested| && m.Keys == Elements(requested[..k])
    && Injective(m)
    && (forall c | c in m :: start <= m[c] <= end)
    && (forall c | c in m :: WellPlaced(start, end, free, probes, m, c))
    && (forall i | 0 <= i < k :: requested[i] in m)
    && (forall i | 0 <= i < k :: KeepsItsNumber(start, end, free, requested, m, i))
  }

  function HostPorts(m: map<int, int>): set<int> {
    set c | c in m :: m[c]
  }

  lemma HostPortsAfter(m: map<int, int>, c: int, host: int)
    requires c !in m
    ensures HostPorts(m[c := host]) == HostPorts(m) + {host}
  {
    var m' := m[c := host];
    assert m'[c] == host;
    forall h | h in HostPorts(m) + {host} ensures h in HostPorts(m') {
      if h in HostPorts(m) {
        var b :| b in m && m[b] == h;
        assert m'[b] == h;
      }
    }
  }

  lemma OthersKeepTheirNumbers(start: int, end: int, free: int -> bool, requested: seq<int>, m: map<int, int>,
                               k: nat, host: int, m': map<int, int>)
    requires NoDuplicates(requested) && k < |requested| && m' == m[requested[k] := host]
    requires forall i | 0 <= i < k :: requested[i] in m
    requires forall i | 0 <= i < k :: KeepsItsNumber(start, end, free, requested, m, i)
    ensures forall i | 0 <= i < k :: requested[i] in m'
    ensures forall i | 0 <= i < k :: KeepsItsNumber(start, end, free, requested, m', i)
  {
    forall i | 0 <= i < k ensures KeepsItsNumber(start, end, free, requested, m', i) {
      assert KeepsItsNumber(start, end, free, requested, m, i);
      assert forall j | 0 <= j <= i :: m'[requested[j]] == m[requested[j]];
    }
  }

  lemma OneMore(start: int, end: int, free: int -> bool, probes: seq<Probe>, requested: seq<int>, m: map<int, int>,
                k: nat, host: int)
    requires NoDuplicates(requested) && k < |requested| && SoundMap(start, end, free, probes, requested, m, k)
    requires forall c | c in m :: m[c] != host
    requires InRange(start, end, host)
    requires var c := requested[k];
             if InRange(start, end, c) && free(c) && (forall b | b in m :: m[b] != c) then host == c
             else CameFrom(start, end, probes, host)
    ensures SoundMap(start, end, free, probes, requested, m[requested[k] := host], k + 1)
  {
    var c := requested[k];
    var m' := m[c := host];
    assert requested[..k + 1] == requested[..k] + [c];
    assert c !in m;
    OthersKeepTheirNumbers(start, end, free, requested, m, k, host, m');
    forall b | b in m ensures WellPlaced(start, end, free, probes, m', b) {
      assert WellPlaced(start, end, free, probes, m, b);
    }
    assert KeepsItsNumber(start, end, free, requested, m', k) by {
      forall b | b in m ensures exists j :: 0 <= j < k && requested[j] == b {
        assert b in requested[..k];
      }
    }
  }

  // `free(c)` answers is_port_free for container port c; probes[k] is what the k-th
  // call of choose_free_port sees. Not finished: it is still choosing when they end.
  // The request is cut short only when a call found every port of its range taken, and
  // left unfinished only while the inner loop has not ended.
  method AssignPorts(start: int, end: int, requested: seq<int>, free: int -> bool, probes: seq<Probe>)
    returns (allocations: map<int, int>, mapped: nat, finished: bool)
    requires NoDuplicates(requested) && forall k | 0 <= k < |probes| :: DrawsBelow(end - start, probes[k])
    ensures SoundMap(start, end, free, probes, requested, allocations, mapped)
    ensures finished && mapped < |requested| ==> exists k | 0 <= k < |probes| :: Exhausted(start, end, probes[k])
    ensures !finished ==> mapped < |requested| && exists k: nat | k <= |probes| ::
              ChooseAgain(start, end, HostPorts(allocations), probes[k..]).Drawing?
  {
    var used: set<int> := {};
    var calls := 0;
    allocations, mapped := map[], 0;
    while mapped < |requested|
      invariant mapped <= |requested| && calls <= |probes|
      invariant used == HostPorts(allocations)
      invariant SoundMap(start, end, free, probes, requested, allocations, mapped)
    {
      var c := requested[mapped];
      var host := c;
      if !(InRange(start, end, c) && c !in used && free(c)) {
        var choice;
        choice, calls := ChooseUnused(start, end, used, probes, calls);
        if !choice.Chosen? {
          return allocations, mapped, choice.RangeExhausted?;
        }
        host := choice.port;
      }
      forall b | b in allocations ensures allocations[b] in used {}
      OneMore(start, end, free, probes, requested, allocations, mapped, host);
      HostPortsAfter(allocations, c, host);
      allocations, used, mapped := allocations[c := host], used + {host}, mapped + 1;
    }
    return allocations, mapped, true;
  }

  // The inner loop: again and again until the port is one this pod does not hold.
  method ChooseUnused(start: int, end: int, used: set<int>, probes: seq<Probe>, from: nat)
    returns (choice: Choice, calls: nat)
    requires from <= |probes| && forall k | 0 <= k < |probes| :: DrawsBelow(end - start, probes[k])
    ensures from <= calls <= |probes|
    ensures choice == ChooseAgain(start, end, used, probes[from..])
    ensures choice.Chosen? ==> choice.port !in used && CameFrom(start, end, probes, choice.port)
    ensures choice.RangeExhausted? ==> exists k | 0 <= k < |probes| :: Exhausted(start, end, probes[k])
  {
    calls := from;
    while calls < |probes|
      invariant from <= calls <= |probes|
      invariant ChooseAgain(start, end, used, probes[calls..]) == ChooseAgain(start, end, used, probes[from..])
    {
      choice := ChooseFreePort(start, end, probes[calls]);
      assert probes[calls..][0] == probes[calls] && probes[calls..][1..] == probes[calls + 1..];
      calls := calls + 1;
      if !(choice.Chosen? && choice.port in used) {
        assert choice.RangeExhausted? ==> Exhausted(start, end, probes[calls - 1]);
        return;
      }
    }
    choice := Drawing;
  }

  // ------------------------------------------------------- when the inner loop can end

  ghost predicate Spare(start: int, end: int, used: set<int>, probe: Probe, p: int) {
    start <= p < end && Available(probe, p) && p !in used
  }

  // Ports can be had, but only ones this pod holds.
  ghost predicate Spins(start: int, end: int, used: set<int>, probe: Probe) {
    !Exhausted(start, end, probe) && forall p :: !Spare(start, end, used, probe, p)
  }

  ghost predicate ValidDraws(start: int, end: int, probes: seq<Probe>) {
    forall k | 0 <= k < |probes| :: DrawsBelow(end - start, probes[k])
  }

  // The same calls of the same host, with other random numbers.
  ghost predicate SameHost(probes: seq<Probe>, others: seq<Probe>) {
    && |probes| == |others|
    && forall k | 0 <= k < |probes| :: others[k] == probes[k].(draws := others[k].draws)
  }

  // While every call sees only the pod's own ports, no draws whatsoever end the loop.
  lemma {:induction false} SpinsForever(start: int, end: int, used: set<int>, probes: seq<Probe>)
    requires ValidDraws(start, end, probes) && forall k | 0 <= k < |probes| :: Spins(start, end, used, probes[k])
    ensures ChooseAgain(start, end, used, probes) == Drawing
  {
    if probes != [] {
      FirstAvailableMeans(start, probes[0], 0);
      assert Spins(start, end, used, probes[0]);
      var c := Choose(start, end, probes[0]);
      if c.Chosen? {
        assert !Spare(start, end, used, probes[0], c.port);
        SpinsForever(start, end, used, probes[1..]);
      } else if c.RangeExhausted? {
        AllTriedNoneAvailable(start, end, probes[0]);
      }
    }
  }

  lemma AllTriedNoneAvailable(start: int, end: int, probe: Probe)
    requires AllTried(start, end, probe) && NoneAvailable(start, probe, |probe.draws|)
    ensures Exhausted(start, end, probe)
  {
    forall p | start <= p < end ensures !Available(probe, p) {
      assert TriedBefore(start, probe, |probe.draws|, p);
    }
  }

  lemma DrawThis(start: int, end: int, probe: Probe, p: int)
    requires start <= p < end && Available(probe, p)
    ensures var drawn := probe.(draws := [p - start]);
            DrawsBelow(end - start, drawn) && Choose(start, end, drawn) == Chosen(p)
  {}

  lemma DrawAll(start: int, end: int, probe: Probe) returns (drawn: Probe)
    requires Exhausted(start, end, probe)
    ensures drawn == probe.(draws := drawn.draws) && DrawsBelow(end - start, drawn)
    ensures Choose(start, end, drawn) == RangeExhausted
  {
    var n := if start < end then end - start else 0;
    drawn := probe.(draws := seq(n, i requires 0 <= i < n => i));
    forall p | start <= p < end ensures TriedBefore(start, drawn, n, p) {
      assert start + drawn.draws[p - start] == p;
    }
    forall i | 0 <= i < n ensures !Available(drawn, start + drawn.draws[i]) {
      assert !Available(probe, start + i);
    }
    FirstAvailableMeans(start, drawn, 0);
  }

  // Draws for which the loop ends at the k-th call, with a spare port if it has one.
  ghost predicate Ends(start: int, end: int, used: set<int>, probes: seq<Probe>, k: nat, others: seq<Probe>)
    requires k < |probes|
  {
    && SameHost(probes, others) && ValidDraws(start, end, others)
    && var c := ChooseAgain(start, end, used, others);
    if Exhausted(start, end, probes[k]) then c == RangeExhausted
    else c.Chosen? && Spare(start, end, used, probes[k], c.port)
  }

  // As soon as one call sees a spare port or an exhausted range, some draws end it.
  lemma {:induction false} SomeDrawsEnd(start: int, end: int, used: set<int>, probes: seq<Probe>, k: nat)
    returns (others: seq<Probe>)
    requires k < |probes| && !Spins(start, end, used, probes[k])
    requires forall j | 0 <= j < k :: Spins(start, end, used, probes[j])
    ensures Ends(start, end, used, probes, k, others)
  {
    if k > 0 {
      assert Spins(start, end, used, probes[0]);
      var here := DrawHeld(start, end, used, probes[0]);
      var rest := SomeDrawsEnd(start, end, used, probes[1..], k - 1);
      EndsLater(start, end, used, probes, k, here, rest);
      others := [here] + rest;
    } else {
      var here := DrawTheEnd(start, end, used, probes[0]);
      EndsHere(start, end, used, probes, here);
      others := [here] + Undrawn(probes[1..]);
    }
  }

  function Undrawn(probes: seq<Probe>): (others: seq<Probe>)
    ensures |others| == |probes|
    ensures forall k | 0 <= k < |probes| :: others[k] == probes[k].(draws := [])
  {
    if probes == [] then [] else [probes[0].(draws := [])] + Undrawn(probes[1..])
  }

  lemma EndsHere(start: int, end: int, used: set<int>, probes: seq<Probe>, here: Probe)
    requires probes != [] && here == probes[0].(draws := here.draws) && DrawsBelow(end - start, here)
    requires var c := Choose(start, end, here);
             if Exhausted(start, end, probes[0]) then c == RangeExhausted
             else c.Chosen? && Spare(start, end, used, probes[0], c.port)
    ensures Ends(start, end, used, probes, 0, [here] + Undrawn(probes[1..]))
  {
    var rest := Undrawn(probes[1..]);
    var others := [here] + rest;
    AgainUnfolds(start, end, used, here, rest);
    forall j | 0 <= j < |probes| ensures others[j] == probes[j].(draws := others[j].draws) {
      assert j > 0 ==> others[j] == rest[j - 1] && probes[j] == probes[1..][j - 1];
    }
    forall j | 0 <= j < |others| ensures DrawsBelow(end - start, others[j]) {
      assert j > 0 ==> others[j] == rest[j - 1];
    }
  }

  lemma EndsLater(start: int, end: int, used: set<int>, probes: seq<Probe>, k: nat, here: Probe, rest: seq<Probe>)
    requires 0 < k < |probes| && here == probes[0].(draws := here.draws) && DrawsBelow(end - start, here)
    requires var c := Choose(start, end, here); c.Chosen? && c.port in used
    requires Ends(start, end, used, probes[1..], k - 1, rest)
    ensures Ends(start, end, used, probes, k, [here] + rest)
  {
    var others := [here] + rest;
    AgainUnfolds(start, end, used, here, rest);
    forall j | 0 <= j < |probes| ensures others[j] == probes[j].(draws := others[j].draws) {
      assert j > 0 ==> others[j] == rest[j - 1] && probes[j] == probes[1..][j - 1];
    }
  }

  lemma AgainUnfolds(start: int, end: int, used: set<int>, here: Probe, rest: seq<Probe>)
    ensures var c := Choose(start, end, here);
            ChooseAgain(start, end, used, [here] + rest)
              == if c.Chosen? && c.port in used then ChooseAgain(start, end, used, rest) else c
  {
    assert ([here] + rest)[1..] == rest;
  }

  lemma DrawHeld(start: int, end: int, used: set<int>, probe: Probe) returns (drawn: Probe)
    requires Spins(start, end, used, probe)
    ensures drawn == probe.(draws := drawn.draws) && DrawsBelow(end - start, drawn)
    ensures var c := Choose(start, end, drawn); c.Chosen? && c.port in used
  {
    var p :| start <= p < end && Available(probe, p);
    assert !Spare(start, end, used, probe, p);
    DrawThis(start, end, probe, p);
    drawn := probe.(draws := [p - start]);
  }

  lemma DrawTheEnd(start: int, end: int, used: set<int>, probe: Probe) returns (drawn: Probe)
    requires !Spins(start, end, used, probe)
    ensures drawn == probe.(draws := drawn.draws) && DrawsBelow(end - start, drawn)
    ensures var c := Choose(start, end, drawn);
            if Exhausted(start, end, probe) then c == RangeExhausted
            else c.Chosen? && Spare(start, end, used, probe, c.port)
  {
    if Exhausted(start, end, probe) {
      drawn := DrawAll(start, end, probe);
    } else {
      var p :| Spare(start, end, used, probe, p);
      DrawThis(start, end, probe, p);
      drawn := probe.(draws := [p - start]);
    }
  }

  // The inner loop can end if and only if some call sees a port that this pod does not
  // hold yet, or no port at all.
  lemma InnerLoopCanEndIff(start: int, end: int, used: set<int>, probes: seq<Probe>)
    ensures (exists others :: SameHost(probes, others) && ValidDraws(start, end, others)
                              && !ChooseAgain(start, end, used, others).Drawing?)
              <==> exists k | 0 <= k < |probes| :: !Spins(start, end, used, probes[k])
  {
    if forall k | 0 <= k < |probes| :: Spins(start, end, used, probes[k]) {
      forall others | SameHost(probes, others) && ValidDraws(start, end, others)
        ensures ChooseAgain(start, end, used, others).Drawing?
      {
        forall k | 0 <= k < |others| ensures Spins(start, end, used, others[k]) {
          assert Spins(start, end, used, probes[k]);
          SpinsByHost(start, end, used, probes[k], others[k]);
        }
        SpinsForever(start, end, used, others);
      }
    } else {
      var k := FirstEnd(start, end, used, probes);
      var others := SomeDrawsEnd(start, end, used, probes, k);
    }
  }

  lemma SpinsByHost(start: int, end: int, used: set<int>, probe: Probe, other: Probe)
    requires other == probe.(draws := other.draws) && Spins(start, end, used, probe)
    ensures Spins(start, end, used, other)
  {
    var q :| start <= q < end && Available(probe, q);
    assert Available(other, q);
    forall p ensures !Spare(start, end, used, other, p) {
      assert !Spare(start, end, used, probe, p);
    }
  }

  lemma {:induction false} FirstEnd(start: int, end: int, used: set<int>, probes: seq<Probe>) returns (k: nat)
    requires exists k | 0 <= k < |probes| :: !Spins(start, end, used, probes[k])
    ensures k < |probes| && !Spins(start, end, used, probes[k])
    ensures forall j | 0 <= j < k :: Spins(start, end, used, probes[j])
  {
    if !Spins(start, end, used, probes[0]) {
      k := 0;
    } else {
      var i :| 0 <= i < |probes| && !Spins(start, end, used, probes[i]);
      assert probes[1..][i - 1] == probes[i];
      k := FirstEnd(start, end, used, probes[1..]);
      k := k + 1;
    }
  }

  ghost function AvailablePorts(start: int, end: int, probe: Probe): set<int> {
    set p | p in Range(start, end) && Available(probe, p)
  }

  // More available ports than the pod holds rule the endless loop out. (A pod holds
  // at most nine when it asks for another.)
  lemma MorePortsThanHeldSuffice(start: int, end: int, used: set<int>, probe: Probe)
    requires |AvailablePorts(start, end, probe)| > |used|
    ensures !Spins(start, end, used, probe)
  {
    if AvailablePorts(start, end, probe) <= used {
      SubsetCardinality(AvailablePorts(start, end, probe), used);
    } else {
      var p :| p in AvailablePorts(start, end, probe) && p !in used;
      assert Spare(start, end, used, probe, p);
    }
  }

  // The two loops of _start_pod_runtime: what a pod's request becomes.
  method PodPorts(raw: seq<Option<int>>, start: int, end: int, free: int -> bool, probes: seq<Probe>)
    returns (allocations: map<int, int>, finished: bool)
    requires forall k | 0 <= k < |probes| :: DrawsBelow(end - start, probes[k])
    ensures Injective(allocations) && |allocations| <= 10
    ensures forall c | c in allocations :: Some(c) in raw && 1 <= c <= 65535 && c != 22
    ensures forall c | c in allocations :: start <= allocations[c] <= end
    ensures exists k: nat :: SoundMap(start, end, free, probes, AtMost(Distinct(raw), MAX_PORTS), allocations, k)
    ensures finished && (forall k | 0 <= k < |probes| :: !Exhausted(start, end, probes[k])) ==>
              allocations.Keys == Elements(AtMost(Distinct(raw), MAX_PORTS))
  {
    var requested := NormalisePorts(raw);
    var mapped;
    allocations, mapped, finished := AssignPorts(start, end, requested, free, probes);
    assert NoDuplicates(requested[..mapped]);
    NoDuplicatesCardinality(requested[..mapped]);
    assert |allocations| == |allocations.Keys|;
    forall c | c in allocations ensures c in requested {
      assert c in Elements(requested[..mapped]);
    }
    assert mapped == |requested| ==> requested[..mapped] == requested;
  }
}
