/** Leader selection (pkg/iss/leaderselectionpolicy/simple.go and blacklist.go). */
module LeaderPolicies {
  import opened Lists
  import opened Quorums
  import opened Types
  import opened SortedKeys

  // ---------------------------------------------------------------- policy updates

  function NewSimple(m: Membership): LeaderPolicy {
    Simple(Sorted(m.Keys))
  }

  /** Records a suspicion, unless it is older than the one already known. */
  function Suspect(p: LeaderPolicy, e: EpochNr, node: NodeId): LeaderPolicy {
    match p
    case Simple(_) => p
    case Blacklist(m, suspected) =>
      if node !in m then p
      else if node !in suspected || suspected[node] < e then p.(suspected := suspected[node := e])
      else p
  }

  function Reconfigure(p: LeaderPolicy, m: Membership): LeaderPolicy {
    match p
    case Simple(_) => NewSimple(m)
    case Blacklist(_, suspected) => Blacklist(m, map n | n in m && n in suspected :: suspected[n])
  }

  datatype PolicyOp = SuspectNode(e: EpochNr, node: NodeId) | ChangeMembership(m: Membership)

  function ApplyOp(p: LeaderPolicy, op: PolicyOp): LeaderPolicy {
    match op
    case SuspectNode(e, node) => Suspect(p, e, node)
    case ChangeMembership(m) => Reconfigure(p, m)
  }

  function ApplyOps(p: LeaderPolicy, ops: seq<PolicyOp>): LeaderPolicy {
    if ops == [] then p else ApplyOp(ApplyOps(p, ops[..|ops| - 1]), ops[|ops| - 1])
  }

  /** The latest epoch in which a node was suspected since it last (re)joined, replayed from the history. */
  function LastSuspected(m0: Membership, ops: seq<PolicyOp>, n: NodeId): Option<EpochNr> {
    if ops == [] then None
    else
      var before := LastSuspected(m0, ops[..|ops| - 1], n);
      match ops[|ops| - 1]
      case SuspectNode(e, node) =>
        if node != n || n !in CurrentMembers(m0, ops[..|ops| - 1]) then before
        else if before.Some? && e <= before.value then before
        else Some(e)
      case ChangeMembership(m) => if n in m then before else None
  }

  function CurrentMembers(m0: Membership, ops: seq<PolicyOp>): Membership {
    if ops == [] then m0
    else match ops[|ops| - 1]
      case SuspectNode(_, _) => CurrentMembers(m0, ops[..|ops| - 1])
      case ChangeMembership(m) => m
  }

  /** After any history the policy holds the current membership, and exactly the members ever suspected
      since they last joined, each with the latest such epoch. */
  lemma {:induction false} BlacklistRemembersLatest(m0: Membership, ops: seq<PolicyOp>)
    ensures
      var p := ApplyOps(Blacklist(m0, map[]), ops);
      && p.Blacklist? && p.membership == CurrentMembers(m0, ops)
      && p.suspected.Keys <= p.membership.Keys
      && (forall n | n in p.membership :: n in p.suspected <==> LastSuspected(m0, ops, n).Some?)
      && (forall n | n in p.suspected :: LastSuspected(m0, ops, n) == Some(p.suspected[n]))
      && (forall n | n !in p.membership :: LastSuspected(m0, ops, n).None?)
  {
    if ops != [] {
      BlacklistRemembersLatest(m0, ops[..|ops| - 1]);
    }
  }

  /** From operation `from` on, the node has been in every new membership. */
  ghost predicate StaysMember(ops: seq<PolicyOp>, from: nat, n: NodeId) {
    forall j | from <= j < |ops| && ops[j].ChangeMembership? :: n in ops[j].m
  }

  /** Operation k suspected the node, which was a member then and has been ever since. */
  ghost predicate BlamedAt(m0: Membership, ops: seq<PolicyOp>, k: nat, n: NodeId) {
    && k < |ops| && ops[k].SuspectNode? && ops[k].node == n && n in CurrentMembers(m0, ops[..k])
    && StaysMember(ops, k + 1, n)
  }

  /** The node was suspected since it last joined, starting from some membership and suspicions. */
  ghost predicate SuspectedSince(
      m0: Membership, suspected0: map<NodeId, EpochNr>, ops: seq<PolicyOp>, n: NodeId)
  {
    (exists k :: BlamedAt(m0, ops, k, n)) || (n in suspected0 && StaysMember(ops, 0, n))
  }

  lemma BlamedSnoc(m0: Membership, ops: seq<PolicyOp>, op: PolicyOp, k: nat, n: NodeId)
    ensures BlamedAt(m0, ops + [op], k, n) <==>
      if k == |ops| then op.SuspectNode? && op.node == n && n in CurrentMembers(m0, ops)
      else BlamedAt(m0, ops, k, n) && (op.ChangeMembership? ==> n in op.m)
  {
    hide CurrentMembers;
    var all := ops + [op];
    if k < |ops| {
      assert all[..k] == ops[..k] && all[|ops|] == op;
      assert forall j | 0 <= j < |ops| :: all[j] == ops[j];
    } else if k == |ops| {
      assert all[..k] == ops;
    }
  }

  lemma StaysSnoc(ops: seq<PolicyOp>, op: PolicyOp, n: NodeId)
    ensures StaysMember(ops + [op], 0, n) <==> StaysMember(ops, 0, n) && (op.ChangeMembership? ==> n in op.m)
  {
    var all := ops + [op];
    assert all[|ops|] == op && forall j | 0 <= j < |ops| :: all[j] == ops[j];
  }

  /** One more operation: a suspicion of a member adds that member, and a new membership keeps its members. */
  lemma SuspectedSnoc(
      m0: Membership, suspected0: map<NodeId, EpochNr>, ops: seq<PolicyOp>, op: PolicyOp, n: NodeId)
    ensures SuspectedSince(m0, suspected0, ops + [op], n) <==>
      if op.SuspectNode? then
        SuspectedSince(m0, suspected0, ops, n) || (op.node == n && n in CurrentMembers(m0, ops))
      else SuspectedSince(m0, suspected0, ops, n) && n in op.m
  {
    hide CurrentMembers, BlamedAt, StaysMember;
    StaysSnoc(ops, op, n);
    forall k: nat
      ensures BlamedAt(m0, ops + [op], k, n) <==>
        if k == |ops| then op.SuspectNode? && op.node == n && n in CurrentMembers(m0, ops)
        else BlamedAt(m0, ops, k, n) && (op.ChangeMembership? ==> n in op.m)
    {
      BlamedSnoc(m0, ops, op, k, n);
    }
    BlamedIsThere(m0, ops, n);
    assert BlamedAt(m0, ops + [op], |ops|, n) <==> op.SuspectNode? && op.node == n && n in CurrentMembers(m0, ops);
  }

  lemma BlamedIsThere(m0: Membership, ops: seq<PolicyOp>, n: NodeId)
    ensures forall k: nat | BlamedAt(m0, ops, k, n) :: k < |ops|
  {}

  /** After any operations, whatever the policy started from: suspected are exactly those who were suspected as
      members, or at the start, and have been in every new membership since. */
  lemma {:induction false} ReplaySuspects(m0: Membership, suspected0: map<NodeId, EpochNr>, ops: seq<PolicyOp>)
    ensures
      var p := ApplyOps(Blacklist(m0, suspected0), ops);
      && p.Blacklist? && p.membership == CurrentMembers(m0, ops)
      && forall n :: n in p.suspected <==> SuspectedSince(m0, suspected0, ops, n)
    decreases |ops|
  {
    if ops == [] {
      forall n ensures SuspectedSince(m0, suspected0, [], n) <==> n in suspected0 {
        assert StaysMember([], 0, n);
      }
    } else {
      var init, op := ops[..|ops| - 1], ops[|ops| - 1];
      ReplaySuspects(m0, suspected0, init);
      hide SuspectedSince;
      assert ops == init + [op];
      forall n {
        SuspectedSnoc(m0, suspected0, init, op, n);
      }
    }
  }

  // ---------------------------------------------------------------- choosing leaders

  /** The order of the candidate list: never suspected nodes first and by ID, then by epoch of suspicion. */
  predicate Before(suspected: map<NodeId, EpochNr>, a: NodeId, b: NodeId) {
    if a !in suspected && b !in suspected then a < b
    else if a !in suspected then true
    else if b !in suspected then false
    else suspected[a] < suspected[b]
  }

  ghost predicate SortedBySuspicion(suspected: map<NodeId, EpochNr>, ids: seq<NodeId>) {
    forall i, j | 0 <= i < j < |ids| :: !Before(suspected, ids[j], ids[i])
  }

  /** Who leads: members without repetition, everybody who was never suspected, and nobody suspected more recently
      than a node left out. */
  ghost predicate Preferred(m: Membership, suspected: map<NodeId, EpochNr>, leaders: seq<NodeId>) {
    && Distinct(leaders) && Elements(leaders) <= m.Keys
    && (forall n | n in m && n !in suspected :: n in leaders)
    && (forall l, n | l in leaders && n in m && n !in leaders ::
          n in suspected && (l in suspected ==> suspected[l] <= suspected[n]))
  }

  /** What a set of leaders must be: these, and a strong quorum. */
  ghost predicate ProperLeaders(m: Membership, suspected: map<NodeId, EpochNr>, leaders: seq<NodeId>) {
    Preferred(m, suspected, leaders) && HaveStrongQuorum(m, Elements(leaders))
  }

  /** No smaller choice would do: either only never suspected nodes lead, or dropping the last leader
      loses the quorum. */
  ghost predicate Minimal(m: Membership, suspected: map<NodeId, EpochNr>, leaders: seq<NodeId>)
    requires Elements(leaders) <= m.Keys && leaders != []
  {
    || (forall l | l in leaders :: l !in suspected)
    || !HaveStrongQuorum(m, Elements(leaders) - {leaders[|leaders| - 1]})
    || |leaders| == 1
  }

  method SortIds(suspected: map<NodeId, EpochNr>, ids: seq<NodeId>) returns (r: seq<NodeId>)
    requires Distinct(ids)
    ensures Distinct(r) && Elements(r) == Elements(ids) && |r| == |ids|
    ensures SortedBySuspicion(suspected, r)
  {
    r := [];
    for k := 0 to |ids|
      invariant |r| == k && Distinct(r) && Elements(r) == Elements(ids[..k])
      invariant SortedBySuspicion(suspected, r)
    {
      var x := ids[k];
      assert x !in Elements(ids[..k]);
      var i := k;
      while i > 0 && Before(suspected, x, r[i - 1])
        invariant 0 <= i <= k
        invariant forall j | i <= j < k :: Before(suspected, x, r[j])
      {
        i := i - 1;
      }
      assert Elements(ids[..k + 1]) == Elements(ids[..k]) + {x};
      InsertKeepsOrder(suspected, r, x, i);
      r := r[..i] + [x] + r[i..];
    }
    assert ids[..|ids|] == ids;
  }

  lemma InsertKeepsOrder(suspected: map<NodeId, EpochNr>, r: seq<NodeId>, x: NodeId, i: nat)
    requires i <= |r| && x !in r && Distinct(r) && SortedBySuspicion(suspected, r)
    requires forall j | i <= j < |r| :: Before(suspected, x, r[j])
    requires i > 0 ==> !Before(suspected, x, r[i - 1])
    ensures
      var r' := r[..i] + [x] + r[i..];
      Distinct(r') && Elements(r') == Elements(r) + {x} && SortedBySuspicion(suspected, r')
  {
    var r' := r[..i] + [x] + r[i..];
    assert Elements(r') == Elements(r) + {x};
    forall j | 0 <= j < i ensures !Before(suspected, x, r[j]) {
      if j < i - 1 {
        assert !Before(suspected, r[i - 1], r[j]);
      }
    }
  }

  lemma PrefixHasEarlier(suspected: map<NodeId, EpochNr>, ids: seq<NodeId>, k: nat, l: NodeId, n: NodeId)
    requires Distinct(ids) && SortedBySuspicion(suspected, ids) && k <= |ids|
    requires l in ids[..k] && n in ids && n !in ids[..k]
    ensures !Before(suspected, n, l)
  {
    var i :| 0 <= i < k && ids[i] == l;
    var j :| 0 <= j < |ids| && ids[j] == n;
    assert j >= k;
  }

  /** Never suspected nodes come first, so as many first places as there are such nodes hold all of them. */
  lemma {:induction false} UnsuspectedComeFirst(suspected: map<NodeId, EpochNr>, ids: seq<NodeId>, k: nat)
    requires Distinct(ids) && SortedBySuspicion(suspected, ids)
    requires suspected.Keys <= Elements(ids) && |ids| - |suspected| <= k <= |ids|
    ensures forall n | n in ids && n !in suspected :: n in ids[..k]
    ensures k == |ids| - |suspected| ==> forall l | l in ids[..k] :: l !in suspected
  {
    var tail := Elements(ids[k..]);
    DistinctSize(ids[k..]);
    forall n | n in ids && n !in suspected ensures n in ids[..k] {
      if n !in ids[..k] {
        // Everything from n on would be unsuspected or later than n, so the prefix would hold no suspect.
        forall l | l in ids[..k] ensures l !in suspected {
          PrefixHasEarlier(suspected, ids, k, l, n);
        }
        assert suspected.Keys <= tail - {n};
        SubsetSize(suspected.Keys, tail - {n});
        assert false;
      }
    }
    if k == |ids| - |suspected| {
      forall l | l in ids[..k] ensures l !in suspected {
        if l in suspected {
          forall n | n in tail ensures n in suspected {
            var i :| 0 <= i < k && ids[i] == l;
            var j :| k <= j < |ids| && ids[j] == n;
            assert !Before(suspected, ids[j], ids[i]);
          }
          assert l !in tail by {
            var i :| 0 <= i < k && ids[i] == l;
          }
          SubsetSize(tail + {l}, suspected.Keys);
          assert false;
        }
      }
    }
  }

  ghost predicate QuorumPrefix(m: Membership, ids: seq<NodeId>, k: nat)
    requires k <= |ids|
  {
    Elements(ids[..k]) <= m.Keys && HaveStrongQuorum(m, Elements(ids[..k]))
  }

  /** All members, in the order in which they are considered. */
  ghost predicate Candidates(m: Membership, suspected: map<NodeId, EpochNr>, ids: seq<NodeId>) {
    Distinct(ids) && Elements(ids) == m.Keys && SortedBySuspicion(suspected, ids)
  }

  /** The shortest prefix, of at least one node, that is a strong quorum. */
  ghost predicate Fewest(m: Membership, ids: seq<NodeId>, k: nat) {
    1 <= k <= |ids| && QuorumPrefix(m, ids, k) && forall j | 1 <= j < k :: !QuorumPrefix(m, ids, j)
  }

  /** What the blacklist policy chooses from the candidates: as many as were never suspected, but at least as many
      as it takes to reach a quorum. */
  ghost predicate Chosen(
      m: Membership, suspected: map<NodeId, EpochNr>, ids: seq<NodeId>, min: nat, leaders: seq<NodeId>)
  {
    var unsuspected := |m| - |suspected|;
    && suspected.Keys <= m.Keys && Candidates(m, suspected, ids) && Fewest(m, ids, min)
    && unsuspected <= |ids| && leaders == ids[..if unsuspected < min then min else unsuspected]
  }

  method IsQuorumPrefix(m: Membership, ids: seq<NodeId>, k: nat) returns (yes: bool)
    requires k <= |ids| && Distinct(ids) && Elements(ids) == m.Keys
    ensures yes <==> QuorumPrefix(m, ids, k)
  {
    hide SetWeight;
    assert forall n | n in ids :: n in Elements(ids);
    var total := SumWeights(m, ids);
    var weight := SumWeights(m, ids[..k]);
    yes := weight >= (total + MaxFaulty(total)) / 2 + 1;
  }

  lemma WholeIsQuorum(m: Membership)
    requires TotalWeight(m) > 0
    ensures HaveStrongQuorum(m, m.Keys)
  {}

  /** If no prefix is a quorum, the slice runs out of nodes, which panics. */
  method MinLeaders(m: Membership, ids: seq<NodeId>) returns (ok: bool, k: nat)
    requires Distinct(ids) && Elements(ids) == m.Keys
    ensures ok ==> Fewest(m, ids, k)
    ensures !ok ==> forall j | 1 <= j <= |ids| :: !QuorumPrefix(m, ids, j)
    ensures TotalWeight(m) > 0 ==> ok
  {
    assert TotalWeight(m) > 0 ==> QuorumPrefix(m, ids, |ids|) && ids != [] by {
      if TotalWeight(m) > 0 {
        assert ids[..|ids|] == ids;
        WholeIsQuorum(m);
      }
    }
    hide SetWeight, QuorumPrefix;
    k := 1;
    while k <= |ids|
      invariant k >= 1 && forall j | 1 <= j < k && j <= |ids| :: !QuorumPrefix(m, ids, j)
    {
      ok := IsQuorumPrefix(m, ids, k);
      if ok {
        return;
      }
      k := k + 1;
    }
    ok := false;
  }

  lemma PrefixIsPreferred(m: Membership, suspected: map<NodeId, EpochNr>, ids: seq<NodeId>, k: nat)
    requires suspected.Keys <= m.Keys && Candidates(m, suspected, ids) && |ids| - |suspected| <= k <= |ids|
    ensures Preferred(m, suspected, ids[..k])
  {
    assert forall n | n in ids :: n in Elements(ids);
    UnsuspectedComeFirst(suspected, ids, k);
    forall l, n | l in ids[..k] && n in m && n !in ids[..k]
      ensures n in suspected && (l in suspected ==> suspected[l] <= suspected[n])
    {
      assert n in Elements(ids);
      PrefixHasEarlier(suspected, ids, k, l, n);
    }
  }

  lemma PrefixIsMinimal(m: Membership, suspected: map<NodeId, EpochNr>, ids: seq<NodeId>, k: nat)
    requires suspected.Keys <= m.Keys
    requires Distinct(ids) && Elements(ids) == m.Keys && SortedBySuspicion(suspected, ids)
    requires 1 <= k <= |ids| && Elements(ids[..k]) <= m.Keys
    requires k == |ids| - |suspected| || k == 1 || !QuorumPrefix(m, ids, k - 1)
    ensures Minimal(m, suspected, ids[..k])
  {
    hide SetWeight;
    if k == |ids| - |suspected| {
      UnsuspectedComeFirst(suspected, ids, k);
    } else {
      var leaders := ids[..k];
      assert ids[..k - 1] == leaders[..k - 1];
      assert Elements(leaders) - {leaders[k - 1]} == Elements(ids[..k - 1]);
    }
  }

  lemma PositiveTotal(m: Membership)
    requires Valid(m) && NonNegative(m)
    ensures TotalWeight(m) > 0
  {
    SetWeightMonotone(m, {}, m.Keys);
  }

  lemma CandidatesSize(m: Membership, suspected: map<NodeId, EpochNr>, ids: seq<NodeId>)
    requires suspected.Keys <= m.Keys && Distinct(ids) && Elements(ids) == m.Keys
    ensures |ids| == |m| >= |suspected|
  {
    DistinctSize(ids);
    SubsetSize(suspected.Keys, m.Keys);
    assert |m.Keys| == |m| && |suspected.Keys| == |suspected|;
  }

  /** Whatever the weights, the leaders are the least suspected members, and no more than needed. */
  lemma ChosenArePreferred(
      m: Membership, suspected: map<NodeId, EpochNr>, ids: seq<NodeId>, min: nat, leaders: seq<NodeId>)
    requires Chosen(m, suspected, ids, min, leaders)
    ensures Preferred(m, suspected, leaders) && leaders != [] && Minimal(m, suspected, leaders)
  {
    hide SetWeight, Distinct, SortedBySuspicion, Preferred, Minimal, QuorumPrefix;
    CandidatesSize(m, suspected, ids);
    PrefixIsPreferred(m, suspected, ids, |leaders|);
    assert Elements(leaders) <= Elements(ids);
    PrefixIsMinimal(m, suspected, ids, |leaders|);
  }

  /** Exactly when they are a quorum: the never suspected members, in the order of their IDs, are one together, or
      no initial part of them is one. */
  lemma ChosenAreQuorumIff(
      m: Membership, suspected: map<NodeId, EpochNr>, ids: seq<NodeId>, min: nat, leaders: seq<NodeId>)
    requires Chosen(m, suspected, ids, min, leaders)
    ensures
      var unsuspected := |m| - |suspected|;
      && Elements(leaders) <= m.Keys && 0 <= unsuspected <= |ids|
      && (HaveStrongQuorum(m, Elements(leaders)) <==>
            || QuorumPrefix(m, ids, unsuspected)
            || (forall j | 1 <= j <= unsuspected :: !QuorumPrefix(m, ids, j)))
  {
    hide SetWeight, SortedBySuspicion;
    CandidatesSize(m, suspected, ids);
    assert forall k: nat | k <= |ids| :: Elements(ids[..k]) <= Elements(ids);
  }

  /** Without negative weights they always are. */
  lemma ChosenAreProper(
      m: Membership, suspected: map<NodeId, EpochNr>, ids: seq<NodeId>, min: nat, leaders: seq<NodeId>)
    requires Chosen(m, suspected, ids, min, leaders) && NonNegative(m)
    ensures ProperLeaders(m, suspected, leaders)
  {
    hide SetWeight, SortedBySuspicion;
    ChosenArePreferred(m, suspected, ids, min, leaders);
    assert Elements(ids[..min]) <= Elements(leaders) <= Elements(ids);
    SetWeightMonotone(m, Elements(ids[..min]), Elements(leaders));
  }

  /** Nodes 0, 1 and 2 with weights 3, -3 and 3. */
  ghost predicate Cancelling(m: Membership) {
    && m.Keys == {0, 1, 2} && m[0].weight == 3 && m[1].weight == -3 && m[2].weight == 3
    && forall id | id in m :: m[id].id == id
  }

  /** With a negative weight they need not be: such a membership is valid, but if node 2 is suspected, its leaders 0
      and 1 are no quorum. */
  lemma NegativeWeightsLoseQuorum(m: Membership) returns (ids: seq<NodeId>, leaders: seq<NodeId>)
    requires Cancelling(m)
    ensures Valid(m) && Chosen(m, map[2 := 0], ids, 1, leaders)
    ensures Elements(leaders) <= m.Keys && !HaveStrongQuorum(m, Elements(leaders))
  {
    ids, leaders := [0, 1, 2], [0, 1];
    hide SetWeight, Chosen, StrongQuorum;
    FirstTwoCancel(m);
    assert |m.Keys| == |m|;
    TwoOfThree(m, map[2 := 0], ids, leaders);
  }

  lemma TwoOfThree(m: Membership, suspected: map<NodeId, EpochNr>, ids: seq<NodeId>, leaders: seq<NodeId>)
    requires suspected == map[2 := 0] && ids == [0, 1, 2] && leaders == [0, 1] && m.Keys == {0, 1, 2} && |m| == 3
    requires SetWeight(m, m.Keys) == 3 && SetWeight(m, {0, 1}) == 0 && SetWeight(m, {0}) == 3
    ensures Chosen(m, suspected, ids, 1, leaders)
    ensures Elements(leaders) <= m.Keys && !HaveStrongQuorum(m, Elements(leaders))
  {
    hide SetWeight, Distinct, SortedBySuspicion;
    ThreeInOrder(suspected, ids);
    assert |suspected| == 1 && suspected.Keys == {2};
    assert QuorumPrefix(m, ids, 1);
  }

  lemma ThreeInOrder(suspected: map<NodeId, EpochNr>, ids: seq<NodeId>)
    requires suspected == map[2 := 0] && ids == [0, 1, 2]
    ensures Distinct(ids) && SortedBySuspicion(suspected, ids) && Elements(ids) == {0, 1, 2}
    ensures Elements(ids[..1]) == {0} && ids[..2] == [0, 1] && Elements(ids[..2]) == {0, 1}
  {}

  lemma FirstTwoCancel(m: Membership)
    requires Cancelling(m)
    ensures SetWeight(m, m.Keys) == 3 && SetWeight(m, {0, 1}) == 0 && SetWeight(m, {0}) == 3
  {
    SetWeightRemove(m, m.Keys, 2);
    assert m.Keys - {2} == {0, 1};
    SetWeightRemove(m, {0, 1}, 1);
    assert {0, 1} - {1} == {0};
    SetWeightRemove(m, {0}, 0);
    assert {0} - {0} == {};
  }

  /** Leaders of the blacklist policy. `keys` is the membership in the order the map iteration yields it. */
  method BlacklistLeaders(m: Membership, suspected: map<NodeId, EpochNr>, keys: seq<NodeId>)
    returns (ok: bool, leaders: seq<NodeId>, ghost ids: seq<NodeId>, ghost min: nat)
    requires suspected.Keys <= m.Keys
    requires Distinct(keys) && Elements(keys) == m.Keys
    ensures ok ==> Chosen(m, suspected, ids, min, leaders)
    ensures ok ==> Preferred(m, suspected, leaders) && leaders != [] && Minimal(m, suspected, leaders)
    ensures ok && NonNegative(m) ==> ProperLeaders(m, suspected, leaders)
    ensures !ok ==> Candidates(m, suspected, ids) && forall j | 1 <= j <= |ids| :: !QuorumPrefix(m, ids, j)
    ensures TotalWeight(m) > 0 ==> ok
  {
    hide SetWeight, Distinct, SortedBySuspicion, Preferred, ProperLeaders, Minimal, QuorumPrefix;
    leaders := [];
    var sorted := SortIds(suspected, keys);
    var minLeaders;
    ok, minLeaders := MinLeaders(m, sorted);
    ids, min := sorted, minLeaders;
    if !ok {
      return;
    }
    CandidatesSize(m, suspected, sorted);
    var numLeaders := |m| - |suspected|;
    if numLeaders < minLeaders {
      numLeaders := minLeaders;
    }
    leaders := sorted[..numLeaders];
    ChosenArePreferred(m, suspected, ids, min, leaders);
    if NonNegative(m) {
      ChosenAreProper(m, suspected, ids, min, leaders);
    }
  }

  // ---------------------------------------------------------------- the policy as an object

  class BlacklistPolicy {
    const membership: Membership
    var suspected: map<NodeId, EpochNr>

    ghost function Value(): LeaderPolicy
      reads this
    {
      Blacklist(membership, suspected)
    }

    ghost predicate SuspectsAreMembers()
      reads this
    {
      suspected.Keys <= membership.Keys
    }

    constructor (m: Membership)
      ensures Value() == Blacklist(m, map[]) && SuspectsAreMembers()
    {
      membership, suspected := m, map[];
    }

    method SuspectNode(e: EpochNr, node: NodeId)
      modifies this`suspected
      ensures Value() == Suspect(old(Value()), e, node) && (old(SuspectsAreMembers()) ==> SuspectsAreMembers())
    {
      if node !in membership {
        return;
      }
      if node !in suspected || suspected[node] < e {
        suspected := suspected[node := e];
      }
    }

    /** Suspicions of nodes that stay members are kept. */
    method ReconfigureTo(m: Membership) returns (q: BlacklistPolicy)
      ensures fresh(q) && q.Value() == Reconfigure(Value(), m) && q.SuspectsAreMembers()
    {
      q := new BlacklistPolicy(m);
      var rest := m.Keys;
      while rest != {}
        invariant rest <= m.Keys && fresh(q)
        invariant q.suspected == map n | n in m && n !in rest && n in suspected :: suspected[n]
      {
        var n: NodeId :| n in rest;
        if n in suspected {
          q.suspected := q.suspected[n := suspected[n]];
        }
        rest := rest - {n};
      }
    }

    method Leaders() returns (ok: bool, leaders: seq<NodeId>, ghost ids: seq<NodeId>, ghost min: nat)
      requires SuspectsAreMembers()
      ensures ok ==> Chosen(membership, suspected, ids, min, leaders)
      ensures ok ==>
        Preferred(membership, suspected, leaders) && leaders != [] && Minimal(membership, suspected, leaders)
      ensures Valid(membership) && NonNegative(membership) ==> ok && ProperLeaders(membership, suspected, leaders)
      ensures !ok ==>
        && TotalWeight(membership) <= 0 && Candidates(membership, suspected, ids)
        && forall j | 1 <= j <= |ids| :: !QuorumPrefix(membership, ids, j)
    {
      hide SetWeight, Chosen, Candidates, QuorumPrefix;
      var keys := ListOf(membership.Keys);
      ok, leaders, ids, min := BlacklistLeaders(membership, suspected, keys);
      if Valid(membership) && NonNegative(membership) {
        PositiveTotal(membership);
      }
    }
  }
}
