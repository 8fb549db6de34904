/** Vocabulary of all modules: optional values and lookups in maps, sequences without
    duplicates, finite sums and unions over sets of deployments, integer ranges, and a
    few facts about the cardinality of sets. */
module Common {

  datatype Option<+T> = None | Some(value: T)

  function Lookup<K, V>(m: map<K, V>, k: K): Option<V> {
    if k in m then Some(m[k]) else None
  }

  ghost predicate NoDuplicates<T>(s: seq<T>) {
    forall i, j | 0 <= i < j < |s| :: s[i] != s[j]
  }

  function Elements<T>(s: seq<T>): set<T> {
    set x | x in s
  }

  lemma {:induction false} NoDuplicatesCardinality<T>(s: seq<T>)
    requires NoDuplicates(s)
    ensures |Elements(s)| == |s|
  {
    if s != [] {
      var init, x := s[..|s| - 1], s[|s| - 1];
      NoDuplicatesCardinality(init);
      assert s == init + [x];
      assert Elements(s) == Elements(init) + {x};
      assert x !in Elements(init);
    }
  }

  lemma Inhabited<T>(s: set<T>)
    ensures s == {} || exists x :: x in s
  {
    if forall x :: x !in s {
      assert s == {};
    }
  }

  ghost function Pick<T>(s: set<T>): (x: T)
    requires s != {}
    ensures x in s
  {
    Inhabited(s);
    var x :| x in s;
    x
  }

  lemma SubsetCardinality<T>(a: set<T>, b: set<T>)
    requires a <= b
    ensures |a| <= |b|
    ensures |a| == |b| ==> a == b
  {
    assert b == a + (b - a);
    assert |b| == |a| + |b - a|;
  }

  function Range(lo: int, hi: int): (r: set<int>)
    ensures forall i :: i in r <==> lo <= i < hi
    ensures |r| == if lo <= hi then hi - lo else 0
    decreases hi - lo
  {
    if hi <= lo then {} else Range(lo, hi - 1) + {hi - 1}
  }

  // Sums of a weight over a finite set of keys.

  ghost function Sum(keys: set<string>, weight: string -> nat): nat {
    if keys == {} then 0
    else
      var k := Pick(keys);
      weight(k) + Sum(keys - {k}, weight)
  }

  // The order in which the keys are picked does not matter.
  lemma {:induction false} SumPick(keys: set<string>, k: string, weight: string -> nat)
    requires k in keys
    ensures Sum(keys, weight) == weight(k) + Sum(keys - {k}, weight)
    decreases keys
  {
    var p := Pick(keys);
    if p != k {
      SumPick(keys - {p}, k, weight);
      SumPick(keys - {k}, p, weight);
      assert keys - {p} - {k} == keys - {k} - {p};
    }
  }

  lemma {:induction false} SumMonotone(keys: set<string>, light: string -> nat, heavy: string -> nat)
    requires forall k | k in keys :: light(k) <= heavy(k)
    ensures Sum(keys, light) <= Sum(keys, heavy)
    decreases keys
  {
    if keys != {} {
      var k := Pick(keys);
      SumPick(keys, k, light);
      SumPick(keys, k, heavy);
      SumMonotone(keys - {k}, light, heavy);
    }
  }

  // A family of pairwise disjoint sets inside a universe: the sizes add up to
  // the size of the union, so they cannot exceed the universe.
  ghost function Union(keys: set<string>, part: string -> set<int>): (r: set<int>)
    ensures forall k | k in keys :: part(k) <= r
    ensures forall x | x in r :: exists k :: k in keys && x in part(k)
  {
    var r := set k, x | k in keys && x in part(k) :: x;
    assert forall k | k in keys :: forall x | x in part(k) :: x in r;
    r
  }

  ghost predicate PairwiseDisjoint(keys: set<string>, part: string -> set<int>) {
    forall a, b | a in keys && b in keys && a != b :: part(a) !! part(b)
  }

  function SizeOf(part: string -> set<int>): string -> nat {
    k => |part(k)|
  }

  lemma UnionPick(keys: set<string>, k: string, part: string -> set<int>)
    requires k in keys
    ensures Union(keys, part) == part(k) + Union(keys - {k}, part)
  {
    forall x | x in Union(keys, part) ensures x in part(k) + Union(keys - {k}, part) {
      var j :| j in keys && x in part(j);
      assert j != k ==> j in keys - {k};
    }
    forall x | x in Union(keys - {k}, part) ensures x in Union(keys, part) {
      var j :| j in keys - {k} && x in part(j);
      assert j in keys;
    }
  }

  lemma {:induction false} SumOfSizes(keys: set<string>, part: string -> set<int>)
    ensures Sum(keys, SizeOf(part)) >= |Union(keys, part)|
    ensures PairwiseDisjoint(keys, part) ==> Sum(keys, SizeOf(part)) == |Union(keys, part)|
    decreases keys
  {
    if keys == {} {
      assert Union(keys, part) == {};
    } else {
      var k := Pick(keys);
      SumPick(keys, k, SizeOf(part));
      SumOfSizes(keys - {k}, part);
      var rest := Union(keys - {k}, part);
      UnionPick(keys, k, part);
      assert |part(k) + rest| == |part(k)| + |rest| - |part(k) * rest|;
      if PairwiseDisjoint(keys, part) {
        assert PairwiseDisjoint(keys - {k}, part);
        assert part(k) * rest == {};
      }
    }
  }
}
