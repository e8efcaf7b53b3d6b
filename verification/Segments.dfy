/** The interleaved segments of an epoch (pkg/iss/iss.go initOrderers and freeProposals,
    pkg/iss/epochinfo.go, pkg/orderers/common/segment.go). */
module Segments {
  import opened Quorums
  import opened Types
  import opened SortedKeys

  /** A segment with free proposals only, so the proposals are their sequence numbers. */
  datatype Segment = Segment(leader: NodeId, membership: Membership, seqNrs: set<SeqNr>)

  function FreeProposals(start: SeqNr, step: nat, length: nat): set<SeqNr> {
    if length == 0 then {}
    else FreeProposals(start, step, length - 1) + {start + (length - 1) * step}
  }

  method MakeFreeProposals(start: SeqNr, step: nat, length: nat) returns (seqNrs: set<SeqNr>)
    ensures seqNrs == FreeProposals(start, step, length)
  {
    seqNrs := {};
    var nextSn := start;
    for i := 0 to length
      invariant seqNrs == FreeProposals(start, step, i) && nextSn == start + i * step
    {
      seqNrs := seqNrs + {nextSn};
      nextSn := nextSn + step;
    }
  }

  function SegmentsOf(leaders: seq<NodeId>, m: Membership, first: SeqNr, length: nat): seq<Segment> {
    seq(|leaders|, i requires 0 <= i < |leaders| =>
      Segment(leaders[i], m, FreeProposals(first + i, |leaders|, length)))
  }

  function EpochLen(segments: seq<Segment>): nat {
    if segments == [] then 0 else EpochLen(segments[..|segments| - 1]) + |segments[|segments| - 1].seqNrs|
  }

  method ComputeEpochLen(segments: seq<Segment>) returns (l: nat)
    ensures l == EpochLen(segments)
  {
    l := 0;
    for i := 0 to |segments|
      invariant l == EpochLen(segments[..i])
    {
      assert segments[..i + 1][..i] == segments[..i];
      l := l + |segments[i].seqNrs|;
    }
    assert segments[..|segments|] == segments;
  }

  // ---------------------------------------------------------------- arithmetic of strides

  lemma DivMod(x: nat, n: nat, j: nat, i: nat)
    requires n > 0 && i < n
    ensures x == j * n + i <==> x / n == j && x % n == i
  {
    assert x == x / n * n + x % n;
    if x == j * n + i {
      if j < x / n {
        MulMonotone(j + 1, x / n, n);
        assert false;
      } else if j > x / n {
        MulMonotone(x / n + 1, j, n);
        assert false;
      }
    }
  }

  lemma MulMonotone(a: nat, b: nat, n: nat)
    requires a <= b
    ensures a * n <= b * n
  {
    assert b * n == a * n + (b - a) * n;
  }

  lemma DivBound(x: nat, n: nat, k: nat)
    requires n > 0
    ensures x / n < k <==> x < n * k
  {
    assert x == x / n * n + x % n && 0 <= x % n < n;
    if x / n < k {
      MulMonotone(x / n + 1, k, n);
    } else {
      MulMonotone(k, x / n, n);
    }
  }

  /** One more stride reaches one more number. */
  lemma OneMoreStride(x: nat, n: nat, i: nat, j: nat)
    requires i < n
    ensures x % n == i && x / n < j + 1 <==> (x % n == i && x / n < j) || x == j * n + i
  {
    DivMod(x, n, j, i);
  }

  /** Which numbers the strides starting at `first + i` reach. */
  lemma {:induction false} StrideMembers(first: SeqNr, i: nat, n: nat, length: nat, sn: SeqNr)
    requires i < n
    ensures sn in FreeProposals(first + i, n, length) <==>
              first <= sn && (sn - first) % n == i && (sn - first) / n < length
    decreases length
  {
    if length > 0 {
      var j := length - 1;
      StrideMembers(first, i, n, j, sn);
      if sn >= first {
        OneMoreStride(sn - first, n, i, j);
      }
    }
  }

  lemma {:induction false} StrideSize(first: SeqNr, i: nat, n: nat, length: nat)
    requires i < n
    ensures |FreeProposals(first + i, n, length)| == length
    decreases length
  {
    if length > 0 {
      var j := length - 1;
      var last := first + i + j * n;
      StrideSize(first, i, n, j);
      StrideMembers(first, i, n, j, last);
      LastIsNew(first, i, n, j);
    }
  }

  lemma LastIsNew(first: SeqNr, i: nat, n: nat, j: nat)
    requires i < n
    ensures
      var last := first + i + j * n;
      last >= first && (last - first) / n == j
  {
    MulMonotone(0, j, n);
    DivMod(j * n + i, n, j, i);
    assert first + i + j * n - first == j * n + i;
  }

  /** Segment i holds exactly the numbers of the epoch that are congruent to first + i modulo the number of leaders. */
  lemma SegmentHolds(leaders: seq<NodeId>, m: Membership, first: SeqNr, length: nat, i: nat, sn: SeqNr)
    requires i < |leaders|
    ensures sn in SegmentsOf(leaders, m, first, length)[i].seqNrs <==>
              first <= sn < first + |leaders| * length && (sn - first) % |leaders| == i
    ensures |SegmentsOf(leaders, m, first, length)[i].seqNrs| == length
  {
    StrideMembers(first, i, |leaders|, length, sn);
    StrideSize(first, i, |leaders|, length);
    if sn >= first {
      DivBound(sn - first, |leaders|, length);
    }
  }

  ghost predicate Covered(segments: seq<Segment>, sn: SeqNr) {
    exists seg | seg in segments :: sn in seg.seqNrs
  }

  /** The segments of an epoch partition it: no two share a number, and together they hold exactly the numbers from
      the first to the end of the epoch. */
  lemma SegmentsPartition(leaders: seq<NodeId>, m: Membership, first: SeqNr, length: nat)
    ensures
      var segments := SegmentsOf(leaders, m, first, length);
      && (forall i, j | 0 <= i < j < |segments| :: segments[i].seqNrs !! segments[j].seqNrs)
      && (forall sn: SeqNr :: Covered(segments, sn) <==> first <= sn < first + EpochLen(segments))
  {
    hide FreeProposals, EpochLen;
    var segments := SegmentsOf(leaders, m, first, length);
    EpochLenIsProduct(leaders, m, first, length);
    forall i, j | 0 <= i < j < |segments| ensures segments[i].seqNrs !! segments[j].seqNrs {
      forall sn | sn in segments[i].seqNrs ensures sn !in segments[j].seqNrs {
        SegmentHolds(leaders, m, first, length, i, sn);
        SegmentHolds(leaders, m, first, length, j, sn);
      }
    }
    forall sn: SeqNr ensures Covered(segments, sn) <==> first <= sn < first + EpochLen(segments) {
      InSomeSegment(leaders, m, first, length, sn);
    }
  }

  lemma InSomeSegment(leaders: seq<NodeId>, m: Membership, first: SeqNr, length: nat, sn: SeqNr)
    ensures
      var segments := SegmentsOf(leaders, m, first, length);
      Covered(segments, sn) <==> first <= sn < first + |leaders| * length
  {
    hide FreeProposals;
    var segments := SegmentsOf(leaders, m, first, length);
    forall seg | seg in segments && sn in seg.seqNrs ensures first <= sn < first + |leaders| * length {
      var i :| 0 <= i < |segments| && segments[i] == seg;
      SegmentHolds(leaders, m, first, length, i, sn);
    }
    if first <= sn < first + |leaders| * length {
      var i := Slot(sn - first, |leaders|);
      SegmentHolds(leaders, m, first, length, i, sn);
      assert segments[i] in segments;
    }
  }

  lemma {:induction false} EpochLenOfEqual(segments: seq<Segment>, length: nat)
    requires forall seg | seg in segments :: |seg.seqNrs| == length
    ensures EpochLen(segments) == |segments| * length
  {
    if segments != [] {
      EpochLenOfEqual(segments[..|segments| - 1], length);
    }
  }

  /** The summed segment lengths are the number of sequence numbers from the first to the end of the epoch. */
  lemma EpochLenIsProduct(leaders: seq<NodeId>, m: Membership, first: SeqNr, length: nat)
    ensures EpochLen(SegmentsOf(leaders, m, first, length)) == |leaders| * length
  {
    var segments := SegmentsOf(leaders, m, first, length);
    forall seg | seg in segments ensures |seg.seqNrs| == length {
      var i :| 0 <= i < |segments| && segments[i] == seg;
      SegmentHolds(leaders, m, first, length, i, first);
    }
    EpochLenOfEqual(segments, length);
  }

  // ---------------------------------------------------------------- primaries

  function NodeIds(seg: Segment): seq<NodeId> {
    Sorted(seg.membership.Keys)
  }

  /** A segment is only created with a leader that is a member. */
  method LeaderIndex(seg: Segment) returns (i: nat)
    requires seg.leader in seg.membership
    ensures IsLeaderIndex(seg, i)
  {
    var ids := NodeIds(seg);
    for k := 0 to |ids|
      invariant forall q | 0 <= q < k :: ids[q] != seg.leader
    {
      if ids[k] == seg.leader {
        return k;
      }
    }
    assert false;
  }

  ghost predicate IsLeaderIndex(seg: Segment, i: nat) {
    i < |NodeIds(seg)| && NodeIds(seg)[i] == seg.leader
  }

  function Slot(x: nat, n: nat): (r: nat)
    requires n > 0
    ensures r < n
  {
    x % n
  }

  function Primary(seg: Segment, leaderIndex: nat, view: nat): NodeId
    requires seg.membership != map[]
  {
    NodeIds(seg)[Slot(leaderIndex + view, |NodeIds(seg)|)]
  }

  lemma SameResidue(x: nat, d: nat, e: nat, n: nat, j: nat)
    requires d <= e < d + n && j < n && (x + d) % n == j && (x + e) % n == j
    ensures d == e
  {
    var a, b := (x + d) / n, (x + e) / n;
    DivMod(x + d, n, a, j);
    DivMod(x + e, n, b, j);
    if a < b {
      MulMonotone(a + 1, b, n);
      assert false;
    } else {
      MulMonotone(b, a, n);
    }
  }

  lemma ReachResidue(x: nat, n: nat, j: nat) returns (d: nat)
    requires j < n
    ensures d < n && (x + d) % n == j
  {
    var a, b := x / n, x % n;
    DivMod(x, n, a, b);
    if j >= b {
      d := j - b;
      DivMod(x + d, n, a, j);
    } else {
      d := j + n - b;
      DivMod(x + d, n, a + 1, j);
    }
  }

  lemma DifferentSlots(x: nat, y: nat, n: nat)
    requires x < y < x + n
    ensures Slot(x, n) != Slot(y, n)
  {
    if Slot(x, n) == Slot(y, n) {
      SameResidue(x, 0, y - x, n, x % n);
      assert false;
    }
  }

  lemma SlotReached(x: nat, n: nat, j: nat) returns (d: nat)
    requires j < n
    ensures d < n && Slot(x + d, n) == j
  {
    d := ReachResidue(x, n, j);
  }

  /** In any |membership| consecutive views the primaries are all different. */
  lemma PrimariesDiffer(seg: Segment, leaderIndex: nat, v: nat, w: nat)
    requires seg.membership != map[] && v < w < v + |seg.membership|
    ensures Primary(seg, leaderIndex, v) != Primary(seg, leaderIndex, w)
  {
    hide Sorted, Slot;
    SortedAscends(seg.membership.Keys);
    DifferentSlots(leaderIndex + v, leaderIndex + w, |seg.membership|);
  }

  /** The leader is the primary of view 0, and every member is the primary of one of any |membership|
      consecutive views. */
  lemma EveryMemberBecomesPrimary(seg: Segment, leaderIndex: nat, first: nat, node: NodeId) returns (view: nat)
    requires IsLeaderIndex(seg, leaderIndex) && node in seg.membership
    ensures Primary(seg, leaderIndex, 0) == seg.leader
    ensures first <= view < first + |seg.membership| && Primary(seg, leaderIndex, view) == node
  {
    hide Sorted;
    var ids := NodeIds(seg);
    assert Slot(leaderIndex, |ids|) == leaderIndex;
    var j :| 0 <= j < |ids| && ids[j] == node;
    var d := SlotReached(leaderIndex + first, |ids|, j);
    hide Slot;
    view := first + d;
    assert leaderIndex + first + d == leaderIndex + view;
  }
}
