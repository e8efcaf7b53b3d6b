/** Vote weights and quorums (pkg/util/membutil/membutil.go).

    A membership maps the ID of every member to its identity. Node IDs are strings in the
    program, which only compares and sorts them; here they are natural numbers with the same
    order. Weights are arbitrary-precision integers in both. */
module Quorums {
  import opened Lists

  type NodeId = nat

  datatype NodeIdentity = NodeIdentity(id: NodeId, addr: string, weight: int)

  type Membership = map<NodeId, NodeIdentity>

  /** The summed weight of a list of members, repetitions counted as often as they occur. */
  function WeightOf(m: Membership, ids: seq<NodeId>): (w: int)
    requires forall id | id in ids :: id in m
  {
    if ids == [] then 0
    else WeightOf(m, ids[..|ids| - 1]) + m[ids[|ids| - 1]].weight
  }

  function MaxFaulty(n: int): int {
    (n - 1) / 3
  }

  /** The whole weight, summed over the set of members. */
  ghost function TotalWeight(m: Membership): int {
    SetWeight(m, m.Keys)
  }

  ghost function StrongQuorum(m: Membership): int {
    (TotalWeight(m) + MaxFaulty(TotalWeight(m))) / 2 + 1
  }

  ghost function WeakQuorum(m: Membership): int {
    MaxFaulty(TotalWeight(m)) + 1
  }

  ghost predicate HaveStrongQuorum(m: Membership, s: set<NodeId>)
    requires s <= m.Keys
  {
    SetWeight(m, s) >= StrongQuorum(m)
  }

  ghost predicate HaveWeakQuorum(m: Membership, s: set<NodeId>)
    requires s <= m.Keys
  {
    SetWeight(m, s) >= WeakQuorum(m)
  }

  /** The checks of membutil.Valid. Negative weights pass them. */
  ghost predicate Valid(m: Membership) {
    && m != map[]
    && (forall id | id in m :: m[id].id == id)
    && TotalWeight(m) != 0
  }

  /** What the quorum arithmetic relies on beyond Valid. */
  ghost predicate NonNegative(m: Membership) {
    forall id | id in m :: m[id].weight >= 0
  }

  // ---------------------------------------------------------------- weights of sets

  ghost function Pick(s: set<NodeId>): (x: NodeId)
    requires s != {}
    ensures x in s
  {
    var x :| x in s; x
  }

  ghost function SetWeight(m: Membership, s: set<NodeId>): (w: int)
    requires s <= m.Keys
  {
    if s == {} then 0
    else m[Pick(s)].weight + SetWeight(m, s - {Pick(s)})
  }

  lemma {:induction false} SetWeightRemove(m: Membership, s: set<NodeId>, y: NodeId)
    requires s <= m.Keys && y in s
    ensures SetWeight(m, s) == m[y].weight + SetWeight(m, s - {y})
    decreases s
  {
    var x := Pick(s);
    if x != y {
      SetWeightRemove(m, s - {x}, y);
      SetWeightRemove(m, s - {y}, x);
      assert s - {x} - {y} == s - {y} - {x};
    }
  }

  /** The summing loop of WeightOf agrees with the weight of the set when no ID repeats. */
  lemma {:induction false} WeightOfDistinct(m: Membership, ids: seq<NodeId>)
    requires forall id | id in ids :: id in m
    requires Distinct(ids)
    ensures WeightOf(m, ids) == SetWeight(m, Elements(ids))
  {
    if ids == [] {
      assert Elements(ids) == {};
    } else {
      var last := ids[|ids| - 1];
      var init := ids[..|ids| - 1];
      WeightOfDistinct(m, init);
      SetWeightRemove(m, Elements(ids), last);
      assert Elements(ids) - {last} == Elements(init);
    }
  }

  method SumWeights(m: Membership, ids: seq<NodeId>) returns (sum: int)
    requires forall id | id in ids :: id in m
    ensures sum == WeightOf(m, ids)
    ensures Distinct(ids) ==> sum == SetWeight(m, Elements(ids))
  {
    sum := 0;
    for i := 0 to |ids|
      invariant sum == WeightOf(m, ids[..i])
    {
      assert ids[..i + 1][..i] == ids[..i];
      sum := sum + m[ids[i]].weight;
    }
    assert ids[..|ids|] == ids;
    if Distinct(ids) {
      WeightOfDistinct(m, ids);
    }
  }

  lemma {:induction false} SetWeightInclusionExclusion(m: Membership, a: set<NodeId>, b: set<NodeId>)
    requires a <= m.Keys && b <= m.Keys
    ensures SetWeight(m, a) + SetWeight(m, b) == SetWeight(m, a + b) + SetWeight(m, a * b)
    decreases a
  {
    if a == {} {
      assert a + b == b && a * b == {};
    } else {
      var x := Pick(a);
      SetWeightInclusionExclusion(m, a - {x}, b);
      if x in b {
        assert (a - {x}) + b == a + b;
        assert (a - {x}) * b == a * b - {x};
        SetWeightRemove(m, a * b, x);
      } else {
        assert (a - {x}) + b == a + b - {x};
        assert (a - {x}) * b == a * b;
        SetWeightRemove(m, a + b, x);
      }
    }
  }

  lemma {:induction false} SetWeightMonotone(m: Membership, a: set<NodeId>, b: set<NodeId>)
    requires a <= b <= m.Keys && NonNegative(m)
    ensures 0 <= SetWeight(m, a) <= SetWeight(m, b)
    decreases b
  {
    if b != {} {
      var x := Pick(b);
      if x in a {
        SetWeightMonotone(m, a - {x}, b - {x});
        SetWeightRemove(m, a, x);
      } else {
        SetWeightMonotone(m, a, b - {x});
      }
    }
  }

  // ---------------------------------------------------------------- quorum intersection

  /** Two strong quorums of one membership always share a node outside any faulty set
      of tolerated weight. */
  lemma StrongQuorumsShareCorrect(m: Membership, a: set<NodeId>, b: set<NodeId>, faulty: set<NodeId>)
    returns (common: NodeId)
    requires NonNegative(m) && a <= m.Keys && b <= m.Keys
    requires SetWeight(m, faulty * m.Keys) <= MaxFaulty(TotalWeight(m))
    requires HaveStrongQuorum(m, a) && HaveStrongQuorum(m, b)
    ensures common in a && common in b && common !in faulty
  {
    SetWeightInclusionExclusion(m, a, b);
    SetWeightMonotone(m, a + b, m.Keys);
    assert SetWeight(m, a * b) > MaxFaulty(TotalWeight(m));
    if a * b <= faulty * m.Keys {
      SetWeightMonotone(m, a * b, faulty * m.Keys);
      assert false;
    }
    common :| common in a * b && common !in faulty * m.Keys;
  }

  /** A weak quorum always contains a node outside any faulty set of tolerated weight. */
  lemma WeakQuorumHasCorrect(m: Membership, a: set<NodeId>, faulty: set<NodeId>)
    returns (correct: NodeId)
    requires NonNegative(m) && a <= m.Keys
    requires SetWeight(m, faulty * m.Keys) <= MaxFaulty(TotalWeight(m))
    requires HaveWeakQuorum(m, a)
    ensures correct in a && correct !in faulty
  {
    if a <= faulty * m.Keys {
      SetWeightMonotone(m, a, faulty * m.Keys);
      assert false;
    }
    correct :| correct in a && correct !in faulty * m.Keys;
  }

  /** In a valid membership without negative weights everybody together is a strong quorum,
      every strong quorum is a weak one, and no quorum is empty. */
  lemma QuorumBounds(m: Membership)
    requires Valid(m) && NonNegative(m)
    ensures HaveStrongQuorum(m, m.Keys)
    ensures 1 <= WeakQuorum(m) <= StrongQuorum(m) <= TotalWeight(m)
    ensures !HaveStrongQuorum(m, {}) && !HaveWeakQuorum(m, {})
  {
    SetWeightMonotone(m, {}, m.Keys);
  }

  /** Without the sign condition the intersection property is false of the code: this valid
      membership has two disjoint strong quorums although no faulty weight is tolerated. */
  lemma NegativeWeightsBreakIntersection() returns (m: Membership, a: set<NodeId>, b: set<NodeId>)
    ensures Valid(m) && !NonNegative(m)
    ensures a <= m.Keys && b <= m.Keys && a !! b
    ensures HaveStrongQuorum(m, a) && HaveStrongQuorum(m, b)
  {
    m := map[0 := NodeIdentity(0, "", 1), 1 := NodeIdentity(1, "", 1), 2 := NodeIdentity(2, "", -1)];
    a, b := {0}, {1};
    SetWeightRemove(m, m.Keys, 0);
    assert m.Keys - {0} == {1, 2};
    SetWeightRemove(m, {1, 2}, 1);
    assert {1, 2} - {1} == {2};
    SetWeightRemove(m, {2}, 2);
    SetWeightRemove(m, {0}, 0);
    SetWeightRemove(m, {1}, 1);
    assert {2} - {2} == {} && {0} - {0} == {} && {1} - {1} == {};
  }

  /** The keys of a map as a list, in arbitrary order (maputil.GetKeys). */
  method ListOf(s: set<NodeId>) returns (ids: seq<NodeId>)
    ensures Distinct(ids) && Elements(ids) == s
  {
    ids := [];
    var rest := s;
    while rest != {}
      invariant rest <= s && Distinct(ids) && Elements(ids) == s - rest
    {
      var x: NodeId :| x in rest;
      assert Elements(ids + [x]) == Elements(ids) + {x};
      ids := ids + [x];
      rest := rest - {x};
    }
  }

  method RunValid(m: Membership) returns (ok: bool)
    ensures ok <==> Valid(m)
  {
    hide SetWeight;
    if m == map[] {
      return false;
    }
    var ids := ListOf(m.Keys);
    assert forall id | id in m :: id in Elements(ids);
    for i := 0 to |ids|
      invariant forall j | 0 <= j < i :: ids[j] in m && m[ids[j]].id == ids[j]
    {
      assert ids[i] in Elements(ids);
      if m[ids[i]].id != ids[i] {
        return false;
      }
    }
    var total := SumWeights(m, ids);
    ok := total != 0;
  }
}
