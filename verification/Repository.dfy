/** Runtime records and the JSON-backed repository that holds them
    (infrastructure/repository.py). */
module Repository {
  import opened Common

  datatype Kind = Inference | Pod | Vm | Unsupported

  datatype Status = Accepted | Preparing | Starting | Ready | Suspended | Failed | Terminated

  // The fields of a runtime record that the agent's decisions depend on.
  // `gpuDevices` is [] when the metadata has no devices, as the code treats both alike.
  datatype Record = Record(
    id: string,
    workload: string,
    kind: Kind,
    status: Status,
    gpuDevices: seq<int>,
    gpuCount: Option<nat>,
    gpuFraction: nat,
    memoryGb: nat,
    container: Option<nat>,
    vm: bool)

  // A Python dict of records: the mapping and its insertion order.
  datatype Store = Store(runtimes: map<string, Record>, order: seq<string>)

  function Get(s: Store, d: string): Option<Record> {
    Lookup(s.runtimes, d)
  }

  function Put(s: Store, r: Record): Store {
    Store(s.runtimes[r.id := r], if r.id in s.runtimes then s.order else s.order + [r.id])
  }

  function Without(order: seq<string>, d: string): (r: seq<string>)
    ensures forall x :: x in r <==> x in order && x != d
    ensures NoDuplicates(order) ==> NoDuplicates(r)
  {
    if order == [] then []
    else if order[0] == d then Without(order[1..], d)
    else
      var rest := Without(order[1..], d);
      assert NoDuplicates(order) ==> NoDuplicates(order[1..]) && order[0] !in order[1..];
      [order[0]] + rest
  }

  function Drop(s: Store, d: string): Store {
    Store(s.runtimes - {d}, if d in s.runtimes then Without(s.order, d) else s.order)
  }

  // `order` with the place of `d` closed up.
  ghost predicate ClosesUp(order: seq<string>, d: string, rest: seq<string>) {
    if d in order then exists i :: 0 <= i < |order| && order[i] == d && rest == order[..i] + order[i + 1..]
    else rest == order
  }

  lemma WithoutClosesUp(order: seq<string>, d: string)
    requires NoDuplicates(order)
    ensures ClosesUp(order, d, Without(order, d))
  {
    if d in order {
      var i :| 0 <= i < |order| && order[i] == d;
      WithoutThis(order, i);
    } else {
      WithoutNone(order, d);
    }
  }

  lemma {:induction false} WithoutNone(order: seq<string>, d: string)
    requires d !in order
    ensures Without(order, d) == order
  {
    if order != [] {
      WithoutNone(order[1..], d);
    }
  }

  lemma {:induction false} WithoutThis(order: seq<string>, i: nat)
    requires NoDuplicates(order) && i < |order|
    ensures Without(order, order[i]) == order[..i] + order[i + 1..]
  {
    var rest := order[1..];
    assert NoDuplicates(rest) && order[0] !in rest;
    if i == 0 {
      WithoutNone(rest, order[0]);
    } else {
      WithoutThis(rest, i - 1);
      assert order[i] == rest[i - 1] && order[i] in rest;
      assert [order[0]] + (rest[..i - 1] + rest[i..]) == order[..i] + order[i + 1..];
    }
  }

  // The order lists every key once, and every record is filed under its own id.
  ghost predicate WellFormed(s: Store) {
    && NoDuplicates(s.order)
    && (forall d :: d in s.order <==> d in s.runtimes)
    && (forall d | d in s.runtimes :: s.runtimes[d].id == d)
  }

  lemma PutKeepsWellFormed(s: Store, r: Record)
    requires WellFormed(s)
    ensures WellFormed(Put(s, r))
  {}

  lemma DropKeepsWellFormed(s: Store, d: string)
    requires WellFormed(s)
    ensures WellFormed(Drop(s, d))
  {}

  class NodeAgentRepository {
    var runtimes: map<string, Record>
    var order: seq<string>
    // What each save() wrote to the state file, oldest first.
    ghost var saves: seq<Store>

    function Contents(): Store
      reads this
    {
      Store(runtimes, order)
    }

    // A Python dict by construction: one position per key.
    ghost predicate Valid()
      reads this
    {
      WellFormed(Contents())
    }

    // Loads the state file.
    constructor (persisted: Store)
      requires WellFormed(persisted)
      ensures Contents() == persisted && saves == [] && Valid()
    {
      runtimes, order, saves := persisted.runtimes, persisted.order, [];
    }

    method UpsertRuntime(r: Record)
      requires Valid()
      modifies this
      ensures Valid()
      ensures Contents() == Put(old(Contents()), r)
      ensures runtimes == old(runtimes)[r.id := r]
      ensures order == old(order) + if r.id in old(runtimes) then [] else [r.id]
      ensures saves == old(saves) + [Contents()]
    {
      PutKeepsWellFormed(Contents(), r);
      if r.id !in runtimes {
        order := order + [r.id];
      }
      runtimes := runtimes[r.id := r];
      saves := saves + [Contents()];
    }

    method GetRuntime(d: string) returns (r: Option<Record>)
      ensures r == Get(Contents(), d)
      ensures r == if d in runtimes then Some(runtimes[d]) else None
    {
      r := if d in runtimes then Some(runtimes[d]) else None;
    }

    method RemoveRuntime(d: string)
      requires Valid()
      modifies this
      ensures Valid()
      ensures Contents() == Drop(old(Contents()), d)
      ensures runtimes == old(runtimes) - {d} && ClosesUp(old(order), d, order)
      ensures saves == old(saves) + [Contents()]
    {
      DropKeepsWellFormed(Contents(), d);
      WithoutClosesUp(order, d);
      if d in runtimes {
        order := Without(order, d);
      }
      runtimes := runtimes - {d};
      saves := saves + [Contents()];
    }

    // Point-in-time copy, in dict order.
    method SnapshotRuntimes() returns (rs: seq<Record>)
      requires Valid()
      ensures |rs| == |order|
      ensures forall i | 0 <= i < |rs| :: Get(Contents(), order[i]) == Some(rs[i]) && rs[i].id == order[i]
    {
      rs := [];
      for i := 0 to |order|
        invariant |rs| == i
        invariant forall j | 0 <= j < i :: Get(Contents(), order[j]) == Some(rs[j]) && rs[j].id == order[j]
      {
        assert order[i] in order;
        rs := rs + [runtimes[order[i]]];
      }
    }
  }
}
