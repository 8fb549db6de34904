/** The node's GPU device allocator (domain/gpu_allocator.py). */
module GpuAllocation {
  import opened Common

  type Allocations = map<string, set<int>>

  // What each allocator operation computes, on values.

  function Entry(m: Allocations, d: string): set<int> {
    if d in m then m[d] else {}
  }

  function Used(m: Allocations): (r: set<int>)
    ensures forall d | d in m :: m[d] <= r
    ensures forall x | x in r :: exists d :: d in m && x in m[d]
  {
    var r := set d, x | d in m && x in m[d] :: x;
    assert forall d | d in m :: forall x | x in m[d] :: x in r;
    r
  }

  function DeviceIds(total: nat): set<int> {
    Range(0, total)
  }

  function Free(total: nat, m: Allocations): set<int> {
    DeviceIds(total) - Used(m)
  }

  ghost predicate StrictlySorted(s: seq<int>) {
    forall i, j | 0 <= i < j < |s| :: s[i] < s[j]
  }

  // `r` lists the `n` smallest elements of `s` in ascending order.
  ghost predicate Smallest(s: set<int>, n: nat, r: seq<int>) {
    && |r| == n
    && StrictlySorted(r)
    && Elements(r) <= s
    && forall i, y | 0 <= i < n && y in s && y !in r :: r[i] < y
  }

  lemma {:induction false} MinimumExists(s: set<int>)
    requires s != {}
    ensures exists x :: x in s && forall y | y in s :: x <= y
  {
    var a := Pick(s);
    if s == {a} {
      assert a in s;
    } else {
      var rest := s - {a};
      assert rest != {};
      MinimumExists(rest);
      var m :| m in rest && forall y | y in rest :: m <= y;
      var x := if a < m then a else m;
      assert x in s && forall y | y in s :: y == a || y in rest;
    }
  }

  lemma ConsSorted(x: int, rest: seq<int>, s: set<int>)
    requires x in s && (forall y | y in s :: x <= y)
    requires StrictlySorted(rest) && Elements(rest) == s - {x}
    ensures StrictlySorted([x] + rest) && Elements([x] + rest) == s
  {
    var r := [x] + rest;
    forall i, j | 0 <= i < j < |r| ensures r[i] < r[j] {
      assert rest[j - 1] in Elements(rest);
    }
    forall y ensures y in Elements(r) <==> y in s {
      assert y in r <==> y == x || y in rest;
      assert y in rest <==> y in Elements(rest);
    }
    assert Elements(r) == s;
  }

  // Python's sorted() on a set of device ids.
  function Sorted(s: set<int>): (r: seq<int>)
    ensures StrictlySorted(r) && Elements(r) == s && |r| == |s|
  {
    if s == {} then []
    else
      MinimumExists(s);
      var x :| x in s && forall y | y in s :: x <= y;
      var rest := Sorted(s - {x});
      ConsSorted(x, rest, s);
      [x] + rest
  }

  datatype Grant = Granted(devices: seq<int>, after: Allocations) | Refused

  function TryAllocate(total: nat, m: Allocations, d: string, n: int, avoid: set<int>): Grant {
    if n <= 0 then Granted([], m)
    else
      var usable := Sorted(Free(total, m) - avoid);
      if n > total || |usable| < n then Refused
      else Granted(usable[..n], m[d := Elements(usable[..n])])
  }

  function TryAllocateSpecific(total: nat, m: Allocations, d: string, devices: seq<int>): Grant {
    var want := Elements(devices);
    if want == {} then Granted([], m)
    else if want <= Free(total, m) + Entry(m, d) then Granted(Sorted(want), m[d := want])
    else Refused
  }

  function Released(m: Allocations, d: string): Allocations {
    m - {d}
  }

  // Devices busy on the host but not held by any of our deployments.
  function Foreign(m: Allocations, busy: set<int>): set<int> {
    busy - Used(m)
  }

  class GpuAllocator {
    const totalGpus: nat
    var allocations: Allocations

    constructor (totalGpus: nat)
      ensures this.totalGpus == totalGpus && allocations == map[]
    {
      this.totalGpus := totalGpus;
      allocations := map[];
    }

    method AllocatedDevices() returns (used: set<int>)
      ensures used == Used(allocations)
    {
      used := {};
      var pending := allocations.Keys;
      while pending != {}
        invariant pending <= allocations.Keys
        invariant forall d | d in allocations.Keys - pending :: allocations[d] <= used
        invariant forall x | x in used :: exists d :: d in allocations && x in allocations[d]
      {
        ghost var witnessed := Pick(pending);
        var d :| d in pending;
        used := used + allocations[d];
        pending := pending - {d};
      }
      assert forall x :: x in used <==> x in Used(allocations);
    }

    method FreeDevices() returns (free: set<int>)
      ensures free == Free(totalGpus, allocations)
    {
      var used := AllocatedDevices();
      free := DeviceIds(totalGpus) - used;
    }

    // None stands for GpuAllocationError.
    method Allocate(d: string, n: int, avoid: set<int>) returns (r: Option<seq<int>>)
      modifies this`allocations
      ensures var g := TryAllocate(totalGpus, old(allocations), d, n, avoid);
              if g.Refused? then r.None? && allocations == old(allocations)
              else r == Some(g.devices) && allocations == g.after
    {
      if n <= 0 {
        return Some([]);
      }
      if n > totalGpus {
        return None;
      }
      var usable := FreeDevices();
      var free := Sorted(usable - avoid);
      if |free| < n {
        return None;
      }
      var chosen := free[..n];
      allocations := allocations[d := Elements(chosen)];
      return Some(chosen);
    }

    method AllocateSpecific(d: string, devices: seq<int>) returns (r: Option<seq<int>>)
      modifies this`allocations
      ensures var g := TryAllocateSpecific(totalGpus, old(allocations), d, devices);
              if g.Refused? then r.None? && allocations == old(allocations)
              else r == Some(g.devices) && allocations == g.after
    {
      var want := Elements(devices);
      if want == {} {
        return Some([]);
      }
      var free := FreeDevices();
      var available := free + (if d in allocations then allocations[d] else {});
      if !(want <= available) {
        return None;
      }
      allocations := allocations[d := want];
      return Some(Sorted(want));
    }

    method Release(d: string) returns (freed: seq<int>)
      modifies this`allocations
      ensures allocations == Released(old(allocations), d)
      ensures freed == Sorted(Entry(old(allocations), d))
    {
      freed := Sorted(if d in allocations then allocations[d] else {});
      allocations := allocations - {d};
    }

    // Records a persisted allocation even when it overlaps another one.
    method Rehydrate(d: string, devices: seq<int>)
      modifies this`allocations
      ensures allocations == old(allocations)[d := Elements(devices)]
    {
      allocations := allocations[d := Elements(devices)];
    }
  }

  // ---------------------------------------------------------------- one call

  lemma PrefixIsSmallest(s: set<int>, all: seq<int>, n: nat)
    requires StrictlySorted(all) && Elements(all) == s && n <= |all|
    ensures Smallest(s, n, all[..n])
  {
    var r := all[..n];
    forall x | x in Elements(r) ensures x in s {
      assert x in all;
    }
    forall i, y | 0 <= i < n && y in s && y !in r ensures r[i] < y {
      assert y in Elements(all);
      assert all == r + all[n..];
      var j :| 0 <= j < |all[n..]| && all[n..][j] == y;
      assert all[n + j] == y;
    }
  }

  // A set has only one list of its n smallest elements.
  lemma SmallestIsUnique(s: set<int>, n: nat, a: seq<int>, b: seq<int>)
    requires Smallest(s, n, a) && Smallest(s, n, b)
    ensures a == b
  {
    SmallestContained(s, n, a, b);
    SmallestContained(s, n, b, a);
    SortedListsOfOneSet(a, b);
  }

  lemma SmallestContained(s: set<int>, n: nat, a: seq<int>, b: seq<int>)
    requires Smallest(s, n, a) && Smallest(s, n, b)
    ensures forall x | x in a :: x in b
  {
    NoDuplicatesCardinality(a);
    NoDuplicatesCardinality(b);
    if y :| y in b && y !in a {
      // y is above everything in a, and whatever a has beyond b is above y
      assert y in Elements(b);
      var j :| 0 <= j < n && b[j] == y;
      forall x | x in a ensures x in b {
        var i :| 0 <= i < n && a[i] == x;
        assert x in Elements(a) && a[i] < y;
      }
    } else {
      assert Elements(b) <= Elements(a);
      SubsetCardinality(Elements(b), Elements(a));
      forall x | x in a ensures x in b {
        assert x in Elements(a);
      }
    }
  }

  lemma {:induction false} SortedListsOfOneSet(a: seq<int>, b: seq<int>)
    requires StrictlySorted(a) && StrictlySorted(b) && |a| == |b|
    requires forall x :: x in a <==> x in b
    ensures a == b
  {
    if a != [] {
      assert a[0] in b && b[0] in a;
      var i :| 0 <= i < |b| && b[i] == a[0];
      var j :| 0 <= j < |a| && a[j] == b[0];
      assert a[0] == b[0];
      forall x ensures x in a[1..] <==> x in b[1..] {
        if x in a[1..] {
          var k :| 1 <= k < |a| && a[k] == x;
          assert x != a[0];
          assert x in b;
        }
        if x in b[1..] {
          var k :| 1 <= k < |b| && b[k] == x;
          assert x != b[0];
          assert x in a;
        }
      }
      SortedListsOfOneSet(a[1..], b[1..]);
      assert a == [a[0]] + a[1..] && b == [b[0]] + b[1..];
    }
  }

  lemma FreeIsBounded(total: nat, m: Allocations, avoid: set<int>)
    ensures |Free(total, m) - avoid| <= total
  {
    SubsetCardinality(Free(total, m) - avoid, DeviceIds(total));
  }

  lemma AllocateGrants(total: nat, m: Allocations, d: string, n: int, avoid: set<int>)
    requires n > 0
    ensures var g := TryAllocate(total, m, d, n, avoid);
            var usable := Free(total, m) - avoid;
            && (g.Granted? <==> |usable| >= n)
            && (g.Granted? ==> Smallest(usable, n, g.devices) && g.after == m[d := Elements(g.devices)])
  {
    var usable := Free(total, m) - avoid;
    FreeIsBounded(total, m, avoid);
    var all := Sorted(usable);
    if |all| >= n {
      PrefixIsSmallest(usable, all, n);
    }
  }

  // allocate() succeeds exactly when enough devices are free outside `avoid`,
  // hands out the smallest ones, and touches no other deployment's entry.
  lemma AllocateIsExact(total: nat, m: Allocations, d: string, n: int, avoid: set<int>)
    requires n > 0
    ensures var g := TryAllocate(total, m, d, n, avoid);
            var usable := Free(total, m) - avoid;
            && (g.Granted? <==> |usable| >= n)
            && (g.Granted? ==>
                  && Smallest(usable, n, g.devices)
                  && Entry(g.after, d) == Elements(g.devices)
                  && |Entry(g.after, d)| == n
                  && forall e | e != d :: Lookup(g.after, e) == Lookup(m, e))
  {
    AllocateGrants(total, m, d, n, avoid);
    var g := TryAllocate(total, m, d, n, avoid);
    if g.Granted? {
      SmallestCount(Free(total, m) - avoid, n, g.devices);
      UpdateTouchesOne(m, d, Elements(g.devices));
    }
  }

  lemma UpdateTouchesOne(m: Allocations, d: string, devices: set<int>)
    ensures Entry(m[d := devices], d) == devices
    ensures forall e | e != d :: Lookup(m[d := devices], e) == Lookup(m, e)
  {}

  lemma SmallestCount(s: set<int>, n: nat, r: seq<int>)
    requires Smallest(s, n, r)
    ensures |Elements(r)| == n
  {
    NoDuplicatesCardinality(r);
  }

  // Every requested device is the caller's already, or one of the node's that nobody holds.
  ghost predicate Available(total: nat, m: Allocations, d: string, devices: seq<int>) {
    forall x | x in devices :: x in Entry(m, d) || (0 <= x < total && forall e | e in m :: x !in m[e])
  }

  lemma FreeMembers(total: nat, m: Allocations, x: int)
    ensures x in Free(total, m) <==> 0 <= x < total && forall e | e in m :: x !in m[e]
  {}

  lemma AvailableMeansCovered(total: nat, m: Allocations, d: string, devices: seq<int>)
    ensures Available(total, m, d, devices) <==> forall x | x in devices :: x in Free(total, m) + Entry(m, d)
  {
    forall x ensures (x in Free(total, m) + Entry(m, d)) ==
                     (x in Entry(m, d) || (0 <= x < total && forall e | e in m :: x !in m[e])) {
      FreeMembers(total, m, x);
    }
  }

  lemma ElementsWithin(s: seq<int>, pool: set<int>)
    ensures Elements(s) <= pool <==> forall x | x in s :: x in pool
  {
    if Elements(s) <= pool {
      forall x | x in s ensures x in pool {
        assert x in Elements(s);
      }
    }
    if forall x | x in s :: x in pool {
      forall x | x in Elements(s) ensures x in pool {
        assert x in s;
      }
    }
  }

  lemma SpecificGrants(total: nat, m: Allocations, d: string, devices: seq<int>)
    requires devices != []
    ensures var g := TryAllocateSpecific(total, m, d, devices);
            && (g.Granted? <==> forall x | x in devices :: x in Free(total, m) + Entry(m, d))
            && (g.Granted? ==> g.devices == Sorted(Elements(devices)) && g.after == m[d := Elements(devices)])
  {
    var want, pool := Elements(devices), Free(total, m) + Entry(m, d);
    assert devices[0] in want;
    ElementsWithin(devices, pool);
  }

  // allocate_specific() succeeds exactly on available devices, and then the
  // deployment holds just those devices; asked for none, it changes nothing.
  lemma AllocateSpecificIsExact(total: nat, m: Allocations, d: string, devices: seq<int>, g: Grant)
    requires g == TryAllocateSpecific(total, m, d, devices)
    ensures g.Granted? <==> Available(total, m, d, devices)
    ensures g.Granted? ==> Elements(g.devices) == Elements(devices) && StrictlySorted(g.devices)
    ensures g.Granted? ==> g.after == if devices == [] then m else m[d := Elements(devices)]
  {
    if devices == [] {
      assert Elements(devices) == {};
    } else {
      SpecificGrants(total, m, d, devices);
      AvailableMeansCovered(total, m, d, devices);
    }
  }

  // What a grant means for everybody else: the new holder's devices come from
  // the free pool.
  ghost predicate FairGrant(total: nat, m: Allocations, d: string, g: Grant) {
    && g.Granted?
    && g.after == m[d := Elements(g.devices)]
    && NoDuplicates(g.devices)
    && Elements(g.devices) <= Free(total, m)
  }

  lemma AllocateIsFair(total: nat, m: Allocations, d: string, n: int, avoid: set<int>)
    requires n > 0 && TryAllocate(total, m, d, n, avoid).Granted?
    ensures FairGrant(total, m, d, TryAllocate(total, m, d, n, avoid))
  {
    AllocateGrants(total, m, d, n, avoid);
  }

  lemma AllocateSpecificIsFair(total: nat, m: Allocations, d: string, devices: seq<int>)
    requires devices != [] && Entry(m, d) == {}
    requires TryAllocateSpecific(total, m, d, devices).Granted?
    ensures FairGrant(total, m, d, TryAllocateSpecific(total, m, d, devices))
    ensures Elements(TryAllocateSpecific(total, m, d, devices).devices) == Elements(devices)
  {
    assert devices[0] in Elements(devices);
  }

  lemma FairGrantsAreDisjoint(total: nat, m: Allocations, d: string, g: Grant, e: string)
    requires FairGrant(total, m, d, g) && e != d
    ensures Entry(g.after, d) !! Entry(m, e)
  {
    assert Entry(m, e) <= Used(m);
  }

  // --------------------------------------------------------- any call sequence

  datatype Call =
    | Allocate(d: string, n: int, avoid: set<int>)
    | AllocateSpecific(d: string, devices: seq<int>)
    | Release(d: string)

  function Perform(total: nat, m: Allocations, c: Call): Allocations {
    match c
    case Allocate(d, n, avoid) =>
      var g := TryAllocate(total, m, d, n, avoid);
      if g.Granted? then g.after else m
    case AllocateSpecific(d, devices) =>
      var g := TryAllocateSpecific(total, m, d, devices);
      if g.Granted? then g.after else m
    case Release(d) => Released(m, d)
  }

  function PerformAll(total: nat, m: Allocations, calls: seq<Call>): Allocations
    decreases |calls|
  {
    if calls == [] then m
    else PerformAll(total, Perform(total, m, calls[0]), calls[1..])
  }

  // Device x is recorded for two deployments at once.
  ghost predicate Shared(m: Allocations, x: int, d: string, e: string) {
    d != e && x in Entry(m, d) && x in Entry(m, e)
  }

  lemma CallAddsNoOverlap(total: nat, m: Allocations, c: Call, x: int, d: string, e: string)
    requires Shared(Perform(total, m, c), x, d, e)
    ensures Shared(m, x, d, e)
  {
    CallKeepsOthers(total, m, c);
    if c.d == d {
      CallTakesOnlyFree(total, m, c, x, e);
    } else if c.d == e {
      CallTakesOnlyFree(total, m, c, x, d);
    }
  }

  lemma CallKeepsOthers(total: nat, m: Allocations, c: Call)
    ensures forall e | e != c.d :: Entry(Perform(total, m, c), e) == Entry(m, e)
  {
    match c
    case Allocate(d, n, avoid) => AllocateTouchesOne(total, m, d, n, avoid);
    case AllocateSpecific(_, _) =>
    case Release(_) =>
  }

  lemma AllocateTouchesOne(total: nat, m: Allocations, d: string, n: int, avoid: set<int>)
    ensures var g := TryAllocate(total, m, d, n, avoid);
            g.Granted? ==> forall e | e != d :: Entry(g.after, e) == Entry(m, e)
  {}

  lemma CallTakesOnlyFree(total: nat, m: Allocations, c: Call, x: int, other: string)
    requires x in Entry(Perform(total, m, c), c.d) && x in Entry(m, other) && other != c.d
    ensures x in Entry(m, c.d)
  {
    assert x in Used(m);
    match c
    case Allocate(_, n, avoid) =>
      if n > 0 && TryAllocate(total, m, c.d, n, avoid).Granted? {
        AllocateIsFair(total, m, c.d, n, avoid);
      }
    case AllocateSpecific(_, devices) =>
    case Release(_) =>
  }

  // Whatever overlaps rehydration left behind, no later sequence of calls makes
  // a device shared by two deployments that was not shared by them before.
  lemma {:induction false} OverlapNeverGrows(total: nat, m: Allocations, calls: seq<Call>, x: int, d: string, e: string)
    requires Shared(PerformAll(total, m, calls), x, d, e)
    ensures Shared(m, x, d, e)
    decreases |calls|
  {
    if calls != [] {
      OverlapNeverGrows(total, Perform(total, m, calls[0]), calls[1..], x, d, e);
      CallAddsNoOverlap(total, m, calls[0], x, d, e);
    }
  }

  lemma UsedAfterRelease(m: Allocations, d: string, x: int)
    ensures x in Used(Released(m, d)) <==> exists e :: e in m && e != d && x in m[e]
  {
    var m' := Released(m, d);
    if e :| e in m && e != d && x in m[e] {
      assert e in m' && x in m'[e];
    }
  }

  // release() frees exactly the devices nobody else still records.
  lemma ReleaseFreesOnlyItsOwn(total: nat, m: Allocations, d: string, x: int)
    ensures x in Free(total, Released(m, d)) && x !in Free(total, m)
       <==> 0 <= x < total && x in Entry(m, d) && forall e | e in m && e != d :: x !in m[e]
  {
    UsedAfterRelease(m, d, x);
    if x in Used(m) {
      var e :| e in m && x in m[e];
    }
  }

  // No overlap, and only devices the node has.
  ghost predicate Sound(total: nat, m: Allocations) {
    && (forall d, e | d in m && e in m && d != e :: m[d] !! m[e])
    && (forall d | d in m :: m[d] <= DeviceIds(total))
  }

  function EntryOf(m: Allocations): string -> set<int> {
    d => Entry(m, d)
  }

  ghost function TotalHeld(m: Allocations): nat {
    Sum(m.Keys, SizeOf(EntryOf(m)))
  }

  lemma UsedIsUnion(m: Allocations)
    ensures Used(m) == Union(m.Keys, EntryOf(m))
  {
    forall x | x in Used(m) ensures x in Union(m.Keys, EntryOf(m)) {
      var d :| d in m && x in m[d];
      assert x in EntryOf(m)(d);
    }
    forall x | x in Union(m.Keys, EntryOf(m)) ensures x in Used(m) {
      var d :| d in m.Keys && x in EntryOf(m)(d);
      assert x in m[d];
    }
  }

  lemma FreeCount(total: nat, m: Allocations)
    ensures |Free(total, m)| >= total - |Used(m)|
    ensures Used(m) <= DeviceIds(total) ==> |Free(total, m)| == total - |Used(m)|
  {
    var ids := DeviceIds(total);
    assert ids == Free(total, m) + (ids * Used(m));
    assert |ids| == |Free(total, m)| + |ids * Used(m)|;
    SubsetCardinality(ids * Used(m), Used(m));
    if Used(m) <= ids {
      assert ids * Used(m) == Used(m);
    }
  }

  lemma SoundMeansConserved(total: nat, m: Allocations)
    requires Sound(total, m)
    ensures TotalHeld(m) + |Free(total, m)| == total
  {
    SumOfSizes(m.Keys, EntryOf(m));
    UsedIsUnion(m);
    FreeCount(total, m);
  }

  lemma CallKeepsSound(total: nat, m: Allocations, c: Call)
    requires Sound(total, m)
    ensures Sound(total, Perform(total, m, c))
  {
    var m' := Perform(total, m, c);
    forall d, e | d in m' && e in m' && d != e ensures m'[d] !! m'[e] {
      forall x | x in m'[d] && x in m'[e] ensures false {
        assert Shared(m', x, d, e);
        CallAddsNoOverlap(total, m, c, x, d, e);
      }
    }
    CallStaysInRange(total, m, c);
  }

  lemma CallStaysInRange(total: nat, m: Allocations, c: Call)
    requires forall d | d in m :: m[d] <= DeviceIds(total)
    ensures forall d | d in Perform(total, m, c) :: Perform(total, m, c)[d] <= DeviceIds(total)
  {
    match c
    case Allocate(d, n, avoid) =>
      if n > 0 && TryAllocate(total, m, d, n, avoid).Granted? {
        AllocateGrants(total, m, d, n, avoid);
      }
    case AllocateSpecific(d, devices) => SpecificStaysInRange(total, m, d, devices);
    case Release(d) =>
  }

  lemma SpecificStaysInRange(total: nat, m: Allocations, d: string, devices: seq<int>)
    requires forall e | e in m :: m[e] <= DeviceIds(total)
    ensures var g := TryAllocateSpecific(total, m, d, devices);
            g.Granted? ==> forall e | e in g.after :: g.after[e] <= DeviceIds(total)
  {}

  // Conservation: from an empty allocator, without rehydration, held and free
  // devices always add up to the node's GPUs.
  lemma {:induction false} DevicesAreConserved(total: nat, m: Allocations, calls: seq<Call>)
    requires Sound(total, m)
    ensures Sound(total, PerformAll(total, m, calls))
    ensures TotalHeld(PerformAll(total, m, calls)) + |Free(total, PerformAll(total, m, calls))| == total
    decreases |calls|
  {
    if calls == [] {
      SoundMeansConserved(total, m);
    } else {
      CallKeepsSound(total, m, calls[0]);
      DevicesAreConserved(total, Perform(total, m, calls[0]), calls[1..]);
    }
  }
}
