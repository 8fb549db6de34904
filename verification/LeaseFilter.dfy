/** Which leases of the fleet's list a pass acts on. */
module LeaseFilter {
  import opened NodeModel

  // `mine` is what is left of `leases`, in order and as often, when exactly the leases
  // of this node and those that name none stay; `at` says where they stood.
  ghost predicate Selects(node: string, leases: seq<Lease>, mine: seq<Lease>, at: seq<nat>) {
    && StoodAt(leases, mine, at)
    && (forall k: nat | k < |leases| :: k in at <==> (leases[k].nodeId == "" || leases[k].nodeId == node))
  }

  ghost predicate StoodAt(leases: seq<Lease>, mine: seq<Lease>, at: seq<nat>) {
    && |at| == |mine|
    && (forall i, j | 0 <= i < j < |at| :: at[i] < at[j])
    && (forall i | 0 <= i < |at| :: at[i] < |leases| && mine[i] == leases[at[i]])
  }

  lemma {:induction false} MineIsExact(cfg: Config, leases: seq<Lease>) returns (at: seq<nat>)
    ensures Selects(cfg.nodeId, leases, Mine(cfg, leases), at)
  {
    if leases == [] {
      at := [];
    } else {
      var rest := MineIsExact(cfg, leases[1..]);
      var later := seq(|rest|, i requires 0 <= i < |rest| => rest[i] + 1);
      at := if leases[0].nodeId == "" || leases[0].nodeId == cfg.nodeId then [0] + later else later;
      SelectsOneMore(cfg.nodeId, leases, Mine(cfg, leases[1..]), rest, later);
    }
  }

  lemma ShiftedIn(rest: seq<nat>, later: seq<nat>, k: nat)
    requires |later| == |rest| && forall i | 0 <= i < |rest| :: later[i] == rest[i] + 1
    ensures k in later <==> k > 0 && k - 1 in rest
  {
    if k > 0 && k - 1 in rest {
      var i :| 0 <= i < |rest| && rest[i] == k - 1;
      assert later[i] == k;
    }
  }

  lemma StoodOneLater(leases: seq<Lease>, mine: seq<Lease>, rest: seq<nat>, later: seq<nat>)
    requires leases != [] && StoodAt(leases[1..], mine, rest)
    requires |later| == |rest| && forall i | 0 <= i < |rest| :: later[i] == rest[i] + 1
    ensures StoodAt(leases, mine, later)
  {
    forall i | 0 <= i < |later| ensures later[i] < |leases| && mine[i] == leases[later[i]] {
      assert leases[1..][rest[i]] == leases[later[i]];
    }
  }

  lemma StoodFirst(leases: seq<Lease>, mine: seq<Lease>, later: seq<nat>)
    requires leases != [] && StoodAt(leases, mine, later) && 0 !in later
    ensures StoodAt(leases, [leases[0]] + mine, [0] + later)
  {
    var at, all := [0] + later, [leases[0]] + mine;
    forall i, j | 0 <= i < j < |at| ensures at[i] < at[j] {
      assert at[j] == later[j - 1] && later[j - 1] in later;
      assert i > 0 ==> at[i] == later[i - 1];
    }
    forall i | 0 <= i < |at| ensures at[i] < |leases| && all[i] == leases[at[i]] {
      assert i > 0 ==> at[i] == later[i - 1] && all[i] == mine[i - 1];
    }
  }

  lemma SelectsOneMore(node: string, leases: seq<Lease>, mine: seq<Lease>, rest: seq<nat>, later: seq<nat>)
    requires leases != [] && Selects(node, leases[1..], mine, rest)
    requires |later| == |rest| && forall i | 0 <= i < |rest| :: later[i] == rest[i] + 1
    ensures if leases[0].nodeId == "" || leases[0].nodeId == node
            then Selects(node, leases, [leases[0]] + mine, [0] + later)
            else Selects(node, leases, mine, later)
  {
    var own := leases[0].nodeId == "" || leases[0].nodeId == node;
    var at := if own then [0] + later else later;
    ShiftedIn(rest, later, 0);
    StoodOneLater(leases, mine, rest, later);
    StoodFirst(leases, mine, later);
    forall k: nat | k < |leases| ensures k in at <==> (leases[k].nodeId == "" || leases[k].nodeId == node) {
      ShiftedIn(rest, later, k);
      assert k in at <==> (own && k == 0) || k in later;
      assert k > 0 ==> leases[1..][k - 1] == leases[k];
    }
  }
}
