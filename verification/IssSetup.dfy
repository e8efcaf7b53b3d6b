/** What ISS sets up for an epoch, and when handling an input fails (pkg/iss/iss.go). */
module IssSetup {
  import opened Lists
  import opened Quorums
  import opened Types
  import opened Segments
  import opened Iss
  import opened IssRuns
  import opened IssTheorems
  import opened IssProgress
  import IL = IssLeaders
  import LP = LeaderPolicies
  import Checkpoint
  import SortedKeys

  // ---------------------------------------------------------------- the modules of an epoch

  /** The segments share no number and hold all those from the first one on, as many as there are. */
  ghost predicate Partition(p: Params, segments: seq<Segment>, first: SeqNr) {
    && (forall i, j | 0 <= i < j < |segments| :: segments[i].seqNrs !! segments[j].seqNrs)
    && (forall sn: SeqNr :: Covered(segments, sn) <==> first <= sn < first + |segments| * p.segmentLength)
  }

  /** The announcement of an epoch at place k is followed by its availability module, a first request for a certificate,
      and its orderers, which partition the sequence numbers of the epoch. */
  ghost predicate SetsUp(p: Params, events: seq<Event>, k: nat, segments: seq<Segment>, first: SeqNr) {
    && k + 3 + |segments| <= |events| && events[k].NewEpoch?
    && events[k + 1].NewAvailability? && events[k + 1].epoch == events[k].nr
    && events[k + 2] == ComputeCert(events[k].nr)
    && (forall j | 0 <= j < |segments| :: events[k + 3 + j] == NewOrderer(events[k].nr, j, segments[j]))
    && (forall seg | seg in segments :: seg.membership == events[k + 1].membership && seg.leader in seg.membership)
    && Partition(p, segments, first)
  }

  /** Then come a checkpoint instance for the state in which the epoch starts, run by the membership of the epoch
      before, and a request for a snapshot of that state. */
  ghost predicate AsksForCheckpoint(p: Params, events: seq<Event>, k: nat, s: State, previous: Membership) {
    && k + 1 < |events| && events[k + 1] == SnapshotRequest(s.epoch.nr)
    && events[k].NewChkpInstance?
    && var params := events[k].params;
       && params.ownId == p.ownId && params.membership == previous && params.leaderPolicy == Encoded(s.policy)
       && params.config == EpochConfig(
            s.epoch.nr, s.epoch.firstSN, |s.epoch.segments| * p.segmentLength, s.memberships)
  }

  lemma StartSetsUp(p: Params, s: State, nr: EpochNr, leaders: seq<NodeId>)
    requires StartEpoch(p, s, nr, leaders).Ok? && s.nextDeliveredSN == s.newEpochSN
    ensures
      var o := StartEpoch(p, s, nr, leaders);
      && SetsUp(p, o.out, 0, o.s.epoch.segments, s.newEpochSN) && |o.out| == 3 + |o.s.epoch.segments|
      && o.s.epoch.firstSN == s.newEpochSN && o.s.epoch.nr == nr == o.out[0].nr
      && EpochLen(o.s.epoch.segments) == |o.s.epoch.segments| * p.segmentLength
  {
    hide FreeProposals, EpochLen, Covered;
    var m := s.memberships[0];
    SegmentsPartition(leaders, m, s.nextDeliveredSN, p.segmentLength);
    EpochLenIsProduct(leaders, m, s.nextDeliveredSN, p.segmentLength);
    var segments := SegmentsOf(leaders, m, s.nextDeliveredSN, p.segmentLength);
    forall seg | seg in segments ensures seg.membership == m && seg.leader in m {
      var j :| 0 <= j < |segments| && segments[j] == seg;
      assert leaders[j] in leaders;
    }
  }

  lemma SetsUpWithin(
      p: Params, a: seq<Event>, b: seq<Event>, c: seq<Event>, k: nat, segments: seq<Segment>, first: SeqNr)
    requires SetsUp(p, b, k, segments, first)
    ensures SetsUp(p, a + b + c, |a| + k, segments, first)
  {
    hide Partition;
    var all := a + b + c;
    assert forall i | 0 <= i < |b| :: all[|a| + i] == b[i];
    forall j | 0 <= j < |segments| ensures all[|a| + k + 3 + j] == NewOrderer(all[|a| + k].nr, j, segments[j]) {
      assert all[|a| + (k + 3 + j)] == b[k + 3 + j];
    }
  }

  lemma AsksWithin(
      p: Params, a: seq<Event>, b: seq<Event>, c: seq<Event>, k: nat, s: State, previous: Membership)
    requires AsksForCheckpoint(p, b, k, s, previous)
    ensures AsksForCheckpoint(p, a + b + c, |a| + k, s, previous)
  {
    var all := a + b + c;
    assert forall i | 0 <= i < |b| :: all[|a| + i] == b[i];
  }

  /** The epoch announced at place k, if there is one, is set up completely. */
  ghost predicate Complete(p: Params, out: seq<Event>, k: nat, s: State, previous: Membership) {
    && SetsUp(p, out, k, s.epoch.segments, s.epoch.firstSN) && out[k].nr == s.epoch.nr
    && AsksForCheckpoint(p, out, k + 3 + |s.epoch.segments|, s, previous)
  }

  ghost predicate CompleteAfter(p: Params, o: Outcome, previous: Membership) {
    o.Ok? ==> forall k | 0 <= k < |o.out| && o.out[k].NewEpoch? :: Complete(p, o.out, k, o.s, previous)
  }

  lemma AdvanceIsComplete(p: Params, s: State, choose: Chooser)
    requires s.nextNewMembership.Some? && s.memberships != [] && s.nextDeliveredSN == s.newEpochSN
    ensures CompleteAfter(p, AdvanceEpoch(p, s, choose), s.memberships[0])
  {
    hide StartEpoch, LP.Reconfigure, SetsUp, EpochLen;
    var o := AdvanceEpoch(p, s, choose);
    if o.Ok? {
      var memberships := s.memberships[1..] + [s.nextNewMembership.value];
      var policy := LP.Reconfigure(s.policy, memberships[0]);
      var s1 := s.(memberships := memberships, nextNewMembership := None, policy := policy);
      var nr := s.epoch.nr + 1;
      StartSetsUp(p, s1, nr, choose(policy));
      StartKeepsRest(p, s1, nr, choose(policy));
      var o1 := StartEpoch(p, s1, nr, choose(policy));
      var more := [NewChkpInstance(ChkpParams(p, o1.s, s.memberships[0])), SnapshotRequest(nr)];
      SetsUpWithin(p, [], o1.out, more, 0, o1.s.epoch.segments, o1.s.epoch.firstSN);
      assert [] + o1.out + more == o.out;
      AdvanceStarts(p, s, choose);
      assert AsksForCheckpoint(p, o.out, |o1.out|, o.s, s.memberships[0]);
    }
  }

  lemma StartKeepsRest(p: Params, s: State, nr: EpochNr, leaders: seq<NodeId>)
    requires StartEpoch(p, s, nr, leaders).Ok?
    ensures
      var t := StartEpoch(p, s, nr, leaders).s;
      t.memberships == s.memberships && t.policy == s.policy
  {
    hide SegmentsOf, EpochLen, OrdererEvents;
  }

  lemma CompleteWithin(p: Params, a: seq<Event>, o: Outcome, c: seq<Event>, previous: Membership)
    requires o.Ok? && CompleteAfter(p, o, previous) && NoEpochs(a) && NoEpochs(c)
    ensures CompleteAfter(p, Ok(o.s, a + o.out + c), previous)
  {
    hide SetsUp, AsksForCheckpoint;
    var all := a + o.out + c;
    assert forall k | 0 <= k < |a| :: all[k] == a[k];
    assert forall k | 0 <= k < |c| :: all[|a| + |o.out| + k] == c[k];
    assert forall k | |a| + |o.out| <= k < |all| :: all[k] == c[k - |a| - |o.out|];
    forall k | 0 <= k < |all| && all[k].NewEpoch? ensures Complete(p, all, k, o.s, previous) {
      assert |a| <= k < |a| + |o.out| && all[k] == o.out[k - |a|];
      assert Complete(p, o.out, k - |a|, o.s, previous);
      SetsUpAt(p, o.out, k - |a|, o.s);
      SetsUpWithin(p, a, o.out, c, k - |a|, o.s.epoch.segments, o.s.epoch.firstSN);
      AsksWithin(p, a, o.out, c, k - |a| + 3 + |o.s.epoch.segments|, o.s, previous);
    }
  }

  lemma SetsUpAt(p: Params, out: seq<Event>, k: nat, s: State)
    requires SetsUp(p, out, k, s.epoch.segments, s.epoch.firstSN)
    ensures k < |out| && out[k].NewEpoch?
  {}

  lemma ProcessIsComplete(p: Params, s: State, choose: Chooser)
    requires s.memberships != []
    ensures CompleteAfter(p, ProcessCommitted(p, s, choose), s.memberships[0])
  {
    hide AdvanceEpoch, CertEvents, Readable, Iss.Run, SuspectAll, Without, Complete;
    var certs := CertEvents(Iss.Run(s.commitLog, s.nextDeliveredSN), s.nextDeliveredSN);
    CertsCreateNothing(Iss.Run(s.commitLog, s.nextDeliveredSN), s.nextDeliveredSN);
    assert forall i | 0 <= i < |certs| :: certs[i] in certs;
    if EpochFinished(Drained(s)) && AdvanceEpoch(p, Drained(s), choose).Ok? {
      AdvanceIsComplete(p, Drained(s), choose);
      CompleteWithin(p, certs, AdvanceEpoch(p, Drained(s), choose), [], s.memberships[0]);
      var out := AdvanceEpoch(p, Drained(s), choose).out;
      assert certs + out + [] == certs + out;
    }
  }

  lemma CommonIsComplete(p: Params, s: State, common: Option<StableCheckpoint>, choose: Chooser)
    requires s.memberships != []
    ensures CompleteAfter(p, OnCommonCheckpoint(p, s, common, choose), s.memberships[0])
  {
    hide ProcessCommitted, Complete;
    if common.Some? && ProcessCommitted(p, s.(lastStable := common.value), choose).Ok? {
      var c := common.value;
      var o := ProcessCommitted(p, s.(lastStable := c), choose);
      ProcessIsComplete(p, s.(lastStable := c), choose);
      CompleteWithin(p, [StableChkp(c)], o, Prune(p, c.Epoch()), s.memberships[0]);
      PrunedIsComplete(p, o.s, [StableChkp(c)] + o.out + Prune(p, c.Epoch()), c.Epoch(), s.memberships[0]);
    }
  }

  /** Dropping the state of old epochs changes nothing here. */
  lemma PrunedIsComplete(p: Params, s: State, out: seq<Event>, epoch: EpochNr, previous: Membership)
    requires CompleteAfter(p, Ok(s, out), previous)
    ensures CompleteAfter(p, Ok(PruneEpochs(p, s, epoch), out), previous)
  {
    hide SetsUp;
    forall k | 0 <= k < |out| && out[k].NewEpoch? ensures Complete(p, out, k, PruneEpochs(p, s, epoch), previous) {
      assert Complete(p, out, k, s, previous);
    }
  }

  lemma StepIsComplete(p: Params, s: State, i: Input, choose: Chooser)
    requires s.memberships != [] && !Installs(s, i)
    ensures CompleteAfter(p, Step(p, s, i, choose), s.memberships[0])
  {
    hide ProcessCommitted, AdvanceEpoch, OnCommonCheckpoint, LP.Suspect, SortedKeys.Sorted, Complete;
    match i
    case SbDeliver(sn, data, aborted, leader) =>
      var policy := LP.Suspect(s.policy, s.epoch.nr, leader);
      ProcessIsComplete(p, s.(commitLog := s.commitLog[sn := Entry(data, true, leader)]), choose);
      ProcessIsComplete(p, s.(policy := policy, commitLog := s.commitLog[sn := Entry(EMPTY, true, leader)]), choose);
    case CertVerified(valid, sn, data, leader) =>
      var policy := LP.Suspect(s.policy, s.epoch.nr, leader);
      ProcessIsComplete(p, s.(commitLog := s.commitLog[sn := Entry(data, false, leader)]), choose);
      ProcessIsComplete(p, s.(policy := policy, commitLog := s.commitLog[sn := Entry(EMPTY, true, leader)]), choose);
    case SbCheckpoint(common) => CommonIsComplete(p, s, common, choose);
    case NewConfig(epochNr, m) =>
      if EpochFinished(s.(nextNewMembership := Some(m))) {
        AdvanceIsComplete(p, s.(nextNewMembership := Some(m)), choose);
      }
    case _ =>
  }

  /** After a restore the epoch is set up as well, but its checkpoint is there already. */
  lemma InstallSetsUp(p: Params, s: State, i: Input, choose: Chooser)
    requires Installs(s, i) && Step(p, s, i, choose).Ok?
    ensures
      var o := Step(p, s, i, choose);
      && SetsUp(p, o.out, 1, o.s.epoch.segments, i.chkp.sn) && OneEpoch(o.out, 1)
      && o.out[0] == RestoreState(i.chkp) && o.out[1].nr == i.chkp.Epoch() == o.s.epoch.nr
      && o.s.epoch.firstSN == i.chkp.sn && TellsOf(o.out, 4 + |o.s.epoch.segments|, i.chkp)
  {
    hide StartEpoch, SetsUp;
    InstallStarts(p, s, i, choose);
    var c, policy := i.chkp, i.chkp.snapshot.epochData.leaderPolicy.policy;
    StartSetsUp(p, Installed(s, c, policy), c.Epoch(), choose(policy));
    var o := StartEpoch(p, Installed(s, c, policy), c.Epoch(), choose(policy));
    SetsUpWithin(p, [RestoreState(c)], o.out, [StableChkp(c)] + PruneAll(c.Epoch()), 0, o.s.epoch.segments, c.sn);
    assert Step(p, s, i, choose).out == [RestoreState(c)] + o.out + ([StableChkp(c)] + PruneAll(c.Epoch()));
  }

  lemma {:induction false} EpochStartsAt(a: seq<Event>, b: seq<Event>)
    requires NoEpochs(b)
    ensures EpochStart(a + b) == EpochStart(a)
    decreases |b|
  {
    if b == [] {
      assert a + b == a;
    } else {
      EpochStartsAt(a, b[..|b| - 1]);
      assert (a + b)[..|a + b| - 1] == a + b[..|b| - 1];
      assert !b[|b| - 1].NewEpoch?;
    }
  }

  lemma {:induction false} SomeMemberships(
      p: Params, start: StableCheckpoint, choose: Chooser, moves: seq<Move>, h: History)
    requires Plays(p, start, choose, moves, h)
    ensures h.s.memberships != []
    decreases |moves|
  {
    hide Step, StartEpoch;
    if moves == [] {
      var policy := start.snapshot.epochData.leaderPolicy.policy;
      StartNeedsMemberships(p, New(start, policy), start.Epoch(), choose(policy));
    } else {
      var init, last := moves[..|moves| - 1], moves[|moves| - 1];
      var h0 := Play(p, start, choose, init).value;
      SomeMemberships(p, start, choose, init, h0);
      StepKeepsSome(p, h0.s, last.input, last.choose);
    }
  }

  lemma StartNeedsMemberships(p: Params, s: State, nr: EpochNr, leaders: seq<NodeId>)
    requires StartEpoch(p, s, nr, leaders).Ok?
    ensures s.memberships != [] && StartEpoch(p, s, nr, leaders).s.memberships == s.memberships
  {
    hide SegmentsOf, EpochLen, OrdererEvents;
  }

  lemma ProcessKeepsSome(p: Params, s: State, choose: Chooser)
    requires s.memberships != [] && ProcessCommitted(p, s, choose).Ok?
    ensures ProcessCommitted(p, s, choose).s.memberships != []
  {
    hide SegmentsOf, EpochLen, OrdererEvents, LP.Reconfigure, CertEvents, Readable, Iss.Run, SuspectAll, Without;
  }

  lemma StepKeepsSome(p: Params, s: State, i: Input, choose: Chooser)
    requires s.memberships != [] && Step(p, s, i, choose).Ok?
    ensures Step(p, s, i, choose).s.memberships != []
  {
    hide ProcessCommitted, StartEpoch, LP.Suspect, LP.Reconfigure, SortedKeys.Sorted;
    match i
    case SbDeliver(sn, data, aborted, leader) =>
      var policy := LP.Suspect(s.policy, s.epoch.nr, leader);
      if aborted {
        ProcessKeepsSome(p, s.(commitLog := s.commitLog[sn := Entry(data, true, leader)]), choose);
      } else if data.Unreadable? {
        ProcessKeepsSome(p, s.(policy := policy, commitLog := s.commitLog[sn := Entry(EMPTY, true, leader)]), choose);
      }
    case CertVerified(valid, sn, data, leader) =>
      var policy := LP.Suspect(s.policy, s.epoch.nr, leader);
      if valid {
        ProcessKeepsSome(p, s.(commitLog := s.commitLog[sn := Entry(data, false, leader)]), choose);
      } else {
        ProcessKeepsSome(p, s.(policy := policy, commitLog := s.commitLog[sn := Entry(EMPTY, true, leader)]), choose);
      }
    case SbCheckpoint(common) =>
      if common.value.sn > s.lastStable.sn {
        ProcessKeepsSome(p, s.(lastStable := common.value), choose);
      }
    case NewConfig(epochNr, m) =>
      var memberships := s.memberships[1..] + [m];
      var policy := LP.Reconfigure(s.policy, memberships[0]);
      var s1 := s.(memberships := memberships, nextNewMembership := None, policy := policy);
      if StartEpoch(p, s1, s.epoch.nr + 1, choose(policy)).Ok? {
        StartNeedsMemberships(p, s1, s.epoch.nr + 1, choose(policy));
      }
    case CheckpointValidated(ok, c) =>
      if Installs(s, i) {
        var policy := c.snapshot.epochData.leaderPolicy.policy;
        StartNeedsMemberships(p, Installed(s, c, policy), c.Epoch(), choose(policy));
      }
    case _ =>
  }

  /** The epoch announced at place k, when the input led from h to h1. */
  ghost predicate EpochSetUp(p: Params, h: History, i: Input, h1: History, k: nat) {
    && 0 < k < |h1.trace| && h.s.memberships != []
    && SetsUp(p, h1.trace, k, h1.s.epoch.segments, EpochStart(h1.trace[..k + 1])) && h1.trace[k].nr == h1.s.epoch.nr
    && (h1.trace[k - 1].RestoreState? <==> Installs(h.s, i))
    && (!Installs(h.s, i) ==>
          AsksForCheckpoint(p, h1.trace, k + 3 + |h1.s.epoch.segments|, h1.s, h.s.memberships[0]))
    && (Installs(h.s, i) ==> TellsOf(h1.trace, k + 3 + |h1.s.epoch.segments|, i.chkp))
  }

  ghost predicate TellsOf(events: seq<Event>, k: nat, c: StableCheckpoint) {
    k < |events| && events[k] == StableChkp(c)
  }

  /** In every run, in any environment: whenever an epoch is announced (by the last move, at place k), its modules are
      set up with the segments of the epoch, which partition its sequence numbers. Then a checkpoint of the state in
      which it starts is asked for, or, if the epoch was restored from a checkpoint, the application is told of that. */
  lemma EpochsAreSetUp(
      p: Params, start: StableCheckpoint, choose: Chooser, moves: seq<Move>, last: Move, h: History, h1: History,
      k: nat)
    requires Plays(p, start, choose, moves, h) && Plays(p, start, choose, moves + [last], h1)
    requires |h.trace| <= k < |h1.trace| && h1.trace[k].NewEpoch?
    ensures EpochSetUp(p, h, last.input, h1, k)
  {
    hide Plays, EpochSetUp, EpochStart, EpochSize, Base, Delivered, Leads;
    SomeMemberships(p, start, choose, moves, h);
    GapFreeDelivery(p, start, choose, moves + [last], h1);
    LeadsOn(p, start, choose, moves, last, h, h1);
    if Installs(h.s, last.input) {
      RestoredIsSetUp(p, h, last, h1, k);
    } else {
      BeforeEpoch(p, start, choose, moves, last, h, h1, k);
      NextIsSetUp(p, h, last, h1, k);
    }
  }

  lemma LeadsOn(
      p: Params, start: StableCheckpoint, choose: Chooser, moves: seq<Move>, last: Move, h: History, h1: History)
    requires Plays(p, start, choose, moves, h) && Plays(p, start, choose, moves + [last], h1)
    ensures Leads(p, h, last, h1)
  {
    hide Step, Begin;
    assert (moves + [last])[..|moves|] == moves;
  }

  /** No other epoch is announced by the same move. */
  lemma SameStart(p: Params, h: History, last: Move, h1: History, k: nat)
    requires Leads(p, h, last, h1) && |h.trace| <= k < |h1.trace|
    requires OneEpoch(Step(p, h.s, last.input, last.choose).out, k - |h.trace|)
    ensures EpochStart(h1.trace) == EpochStart(h1.trace[..k + 1])
  {
    hide Step, EpochStart;
    var out := Step(p, h.s, last.input, last.choose).out;
    assert h1.trace == h1.trace[..k + 1] + out[k - |h.trace| + 1..];
    EpochStartsAt(h1.trace[..k + 1], out[k - |h.trace| + 1..]);
  }

  lemma RestoredIsSetUp(p: Params, h: History, last: Move, h1: History, k: nat)
    requires Leads(p, h, last, h1) && |h.trace| <= k < |h1.trace| && h1.trace[k].NewEpoch? && h.s.memberships != []
    requires Installs(h.s, last.input) && h1.s.epoch.firstSN == EpochStart(h1.trace)
    ensures EpochSetUp(p, h, last.input, h1, k)
  {
    hide Step, SetsUp, AsksForCheckpoint, EpochStart;
    var o := Step(p, h.s, last.input, last.choose);
    InstallSetsUp(p, h.s, last.input, last.choose);
    assert k == |h.trace| + 1 && h1.trace[k - 1] == o.out[0] by {
      assert h1.trace[k] == o.out[k - |h.trace|];
    }
    SameStart(p, h, last, h1, k);
    assert h1.trace[|h.trace| + 4 + |o.s.epoch.segments|] == o.out[4 + |o.s.epoch.segments|];
    SetsUpWithin(p, h.trace, o.out, [], 1, o.s.epoch.segments, o.s.epoch.firstSN);
    assert h.trace + o.out + [] == h1.trace;
  }

  lemma NextIsSetUp(p: Params, h: History, last: Move, h1: History, k: nat)
    requires Leads(p, h, last, h1) && |h.trace| <= k < |h1.trace| && h1.trace[k].NewEpoch? && h.s.memberships != []
    requires !Installs(h.s, last.input) && h1.s.epoch.firstSN == EpochStart(h1.trace)
    requires k > 0 && !h1.trace[k - 1].RestoreState?
    ensures EpochSetUp(p, h, last.input, h1, k)
  {
    hide Step, SetsUp, AsksForCheckpoint, EpochStart;
    var o, j := Step(p, h.s, last.input, last.choose), k - |h.trace|;
    assert h1.trace[k] == o.out[j];
    StepIsComplete(p, h.s, last.input, last.choose);
    assert Complete(p, o.out, j, o.s, h.s.memberships[0]);
    StepStartsOne(p, h, last, o, j);
    SameStart(p, h, last, h1, k);
    SetsUpWithin(p, h.trace, o.out, [], j, o.s.epoch.segments, o.s.epoch.firstSN);
    AsksWithin(p, h.trace, o.out, [], j + 3 + |o.s.epoch.segments|, o.s, h.s.memberships[0]);
    assert h.trace + o.out + [] == h1.trace;
  }

  lemma StepStartsOne(p: Params, h: History, last: Move, o: Outcome, j: nat)
    requires o == Step(p, h.s, last.input, last.choose) && o.Ok? && !Installs(h.s, last.input)
    requires j < |o.out| && o.out[j].NewEpoch?
    ensures OneEpoch(o.out, j)
  {
    hide Step;
    StepGiven(p, h.s, last.input, last.choose);
  }

  /** An epoch that is not restored is not announced right after a restore. */
  lemma BeforeEpoch(
      p: Params, start: StableCheckpoint, choose: Chooser, moves: seq<Move>, last: Move, h: History, h1: History,
      k: nat)
    requires Plays(p, start, choose, moves, h) && Plays(p, start, choose, moves + [last], h1)
    requires |h.trace| <= k < |h1.trace| && h1.trace[k].NewEpoch? && !Installs(h.s, last.input)
    ensures k > 0 && !h1.trace[k - 1].RestoreState?
  {
    hide Step, Begin, See;
    assert (moves + [last])[..|moves|] == moves;
    RunSeen(p, start, choose, moves);
    SeenNonempty(h.trace, h.s);
    if k == |h.trace| {
      LastIsNoRestore(h.trace, h.s);
      assert h1.trace[k - 1] == h.trace[k - 1];
    } else {
      StepRestoresNothing(p, h.s, last.input, last.choose);
      var out := Step(p, h.s, last.input, last.choose).out;
      assert h1.trace[k - 1] == out[k - 1 - |h.trace|] && out[k - 1 - |h.trace|] in out;
    }
  }

  lemma SeenNonempty(trace: seq<Event>, s: State)
    requires SeeAll(Start, trace) == ViewOf(s)
    ensures trace != []
  {}

  lemma LastIsNoRestore(trace: seq<Event>, s: State)
    requires trace != [] && SeeAll(Start, trace) == ViewOf(s)
    ensures !trace[|trace| - 1].RestoreState?
  {}

  lemma AdvanceRestoresNothing(p: Params, s: State, choose: Chooser)
    requires s.nextNewMembership.Some? && AdvanceEpoch(p, s, choose).Ok?
    ensures NoRestore(AdvanceEpoch(p, s, choose).out)
  {
    hide SegmentsOf, EpochLen, LP.Reconfigure;
  }

  lemma ProcessRestoresNothing(p: Params, s: State, choose: Chooser)
    requires ProcessCommitted(p, s, choose).Ok?
    ensures NoRestore(ProcessCommitted(p, s, choose).out)
  {
    hide AdvanceEpoch, CertEvents, Readable, Iss.Run, SuspectAll, Without;
    CertsCreateNothing(Iss.Run(s.commitLog, s.nextDeliveredSN), s.nextDeliveredSN);
    if EpochFinished(Drained(s)) {
      AdvanceRestoresNothing(p, Drained(s), choose);
    }
  }

  lemma StepRestoresNothing(p: Params, s: State, i: Input, choose: Chooser)
    requires Step(p, s, i, choose).Ok? && !Installs(s, i)
    ensures NoRestore(Step(p, s, i, choose).out)
  {
    hide ProcessCommitted, AdvanceEpoch, LP.Suspect, SortedKeys.Sorted;
    match i
    case SbDeliver(sn, data, aborted, leader) =>
      var policy := LP.Suspect(s.policy, s.epoch.nr, leader);
      if aborted {
        ProcessRestoresNothing(p, s.(commitLog := s.commitLog[sn := Entry(data, true, leader)]), choose);
      } else if data.Unreadable? {
        var log := s.commitLog[sn := Entry(EMPTY, true, leader)];
        ProcessRestoresNothing(p, s.(policy := policy, commitLog := log), choose);
      }
    case CertVerified(valid, sn, data, leader) =>
      var policy := LP.Suspect(s.policy, s.epoch.nr, leader);
      if valid {
        ProcessRestoresNothing(p, s.(commitLog := s.commitLog[sn := Entry(data, false, leader)]), choose);
      } else {
        var log := s.commitLog[sn := Entry(EMPTY, true, leader)];
        ProcessRestoresNothing(p, s.(policy := policy, commitLog := log), choose);
      }
    case SbCheckpoint(common) =>
      if common.value.sn > s.lastStable.sn {
        ProcessRestoresNothing(p, s.(lastStable := common.value), choose);
      }
    case NewConfig(epochNr, m) =>
      var s1 := s.(nextNewMembership := Some(m));
      if EpochFinished(s1) && AcceptsMembership(s, i) {
        AdvanceRestoresNothing(p, s1, choose);
      }
    case _ =>
  }

  /** The first epoch of a run is that of the checkpoint it starts from. */
  lemma FirstEpochIsSetUp(p: Params, start: StableCheckpoint, choose: Chooser, h: History)
    requires Plays(p, start, choose, [], h)
    ensures SetsUp(p, h.trace, 1, h.s.epoch.segments, start.sn) && OneEpoch(h.trace, 1)
    ensures h.trace[0] == RestoreState(start) && h.trace[1].nr == start.Epoch() == h.s.epoch.nr
  {
    hide StartEpoch, SetsUp;
    BeginStarts(p, start, choose);
    var policy := start.snapshot.epochData.leaderPolicy.policy;
    StartSetsUp(p, New(start, policy), start.Epoch(), choose(policy));
    var o := StartEpoch(p, New(start, policy), start.Epoch(), choose(policy));
    SetsUpWithin(p, [RestoreState(start)], o.out, [], 0, o.s.epoch.segments, start.sn);
    assert [RestoreState(start)] + o.out + [] == h.trace;
  }

  // ---------------------------------------------------------------- failing

  ghost predicate Weighty(m: Membership) {
    TotalWeight(m) > 0
  }

  ghost predicate AllWeighty(ms: seq<Membership>) {
    forall m | m in ms :: Weighty(m)
  }

  ghost predicate ReadableLog(log: map<SeqNr, Entry>) {
    forall sn | sn in log :: log[sn].aborted || log[sn].data.Cert?
  }

  /** Every membership has some weight, and everything in the log can be delivered. */
  ghost predicate Healthy(s: State) {
    && s.memberships != [] && AllWeighty(s.memberships) && ReadableLog(s.commitLog)
    && (s.nextNewMembership.Some? ==> Weighty(s.nextNewMembership.value))
  }

  ghost predicate HealthyCheckpoint(c: StableCheckpoint) {
    IL.Fits(c) && AllWeighty(c.Memberships())
  }

  /** What the other modules promise: memberships have some weight, only certificates are found valid, and checkpoints
      carry a leader policy for their first membership. */
  ghost predicate HealthyInput(i: Input) {
    match i
    case CertVerified(valid, _, data, _) => valid ==> data.Cert?
    case NewConfig(_, m) => Weighty(m)
    case CheckpointValidated(ok, c) => ok ==> HealthyCheckpoint(c)
    case _ => true
  }

  /** No checkpoint could be agreed on, a second membership comes in one epoch, or a checkpoint has no members that
      could agree on it. */
  predicate Fails(s: State, i: Input) {
    match i
    case SbCheckpoint(common) => common.None?
    case NewConfig(epochNr, _) => epochNr >= s.epoch.nr && s.nextNewMembership.Some?
    case ProtocolCheckpoint(c) => c.sn > s.lastPendingSN && c.PreviousMembership() == map[]
    case _ => false
  }

  ghost predicate Succeeds(o: Outcome) {
    o.Ok? && Healthy(o.s)
  }

  lemma LeadersAreMembers(policy: LeaderPolicy, m: Membership, choose: Chooser)
    requires ProperChooser(choose) && IL.Fitting(policy, m) && Weighty(m)
    ensures Elements(choose(policy)) <= m.Keys
  {}

  lemma StartSucceeds(p: Params, s: State, nr: EpochNr, choose: Chooser)
    requires Healthy(s) && ProperChooser(choose) && IL.Fitting(s.policy, s.memberships[0])
    ensures Succeeds(StartEpoch(p, s, nr, choose(s.policy)))
  {
    hide SegmentsOf, EpochLen, OrdererEvents, ProperChooser, IL.Fitting, TotalWeight;
    assert s.memberships[0] in s.memberships;
    LeadersAreMembers(s.policy, s.memberships[0], choose);
    forall l | l in choose(s.policy) ensures l in s.memberships[0] {
      assert l in Elements(choose(s.policy));
    }
  }

  lemma AdvanceSucceeds(p: Params, s: State, choose: Chooser)
    requires Healthy(s) && s.nextNewMembership.Some? && ProperChooser(choose)
    ensures Succeeds(AdvanceEpoch(p, s, choose))
  {
    hide StartEpoch, ProperChooser, LP.Reconfigure, IL.Fitting, Weighty;
    var memberships := s.memberships[1..] + [s.nextNewMembership.value];
    var policy := LP.Reconfigure(s.policy, memberships[0]);
    var s1 := s.(memberships := memberships, nextNewMembership := None, policy := policy);
    IL.ReconfiguredFits(s.policy, memberships[0]);
    StartSucceeds(p, s1, s.epoch.nr + 1, choose);
  }

  lemma {:induction false} RunIsReadable(log: map<SeqNr, Entry>, next: SeqNr)
    requires ReadableLog(log)
    ensures Readable(Iss.Run(log, next))
    decreases |log|
  {
    if next in log {
      RunIsReadable(log - {next}, next + 1);
    }
  }

  lemma ProcessSucceeds(p: Params, s: State, choose: Chooser)
    requires Healthy(s) && ProperChooser(choose)
    ensures Succeeds(ProcessCommitted(p, s, choose))
  {
    hide AdvanceEpoch, CertEvents, Readable, Iss.Run, SuspectAll, ProperChooser, AllWeighty, Weighty;
    RunIsReadable(s.commitLog, s.nextDeliveredSN);
    assert Healthy(Drained(s));
    if EpochFinished(Drained(s)) {
      AdvanceSucceeds(p, Drained(s), choose);
    }
  }

  lemma InstallSucceeds(p: Params, s: State, c: StableCheckpoint, policy: LeaderPolicy, choose: Chooser)
    requires HealthyCheckpoint(c) && c.snapshot.epochData.leaderPolicy == Encoded(policy) && ProperChooser(choose)
    ensures Succeeds(Install(p, s, c, policy, choose))
  {
    hide StartEpoch, ProperChooser, IL.Fitting, Weighty;
    StartSucceeds(p, Installed(s, c, policy), c.Epoch(), choose);
  }

  lemma SortedEmptyIff(m: Membership)
    ensures SortedKeys.Sorted(m.Keys) == [] <==> m == map[]
  {
    assert |SortedKeys.Sorted(m.Keys)| == |m.Keys|;
  }

  /** Handling an input fails exactly for these reasons, and otherwise leaves a healthy state. */
  lemma StepFailsIff(p: Params, s: State, i: Input, choose: Chooser)
    requires Healthy(s) && HealthyInput(i) && ProperChooser(choose)
    ensures if Fails(s, i) then Step(p, s, i, choose).Error? else Succeeds(Step(p, s, i, choose))
  {
    hide ProcessCommitted, AdvanceEpoch, Install, LP.Suspect, SortedKeys.Sorted, ProperChooser, Weighty, AllWeighty;
    match i
    case SbDeliver(sn, data, aborted, leader) =>
      var policy := LP.Suspect(s.policy, s.epoch.nr, leader);
      ProcessSucceeds(p, s.(commitLog := s.commitLog[sn := Entry(data, true, leader)]), choose);
      ProcessSucceeds(p, s.(policy := policy, commitLog := s.commitLog[sn := Entry(EMPTY, true, leader)]), choose);
    case CertVerified(valid, sn, data, leader) =>
      var policy := LP.Suspect(s.policy, s.epoch.nr, leader);
      if valid {
        ProcessSucceeds(p, s.(commitLog := s.commitLog[sn := Entry(data, false, leader)]), choose);
      } else {
        ProcessSucceeds(p, s.(policy := policy, commitLog := s.commitLog[sn := Entry(EMPTY, true, leader)]), choose);
      }
    case SbCheckpoint(common) =>
      if common.Some? {
        ProcessSucceeds(p, s.(lastStable := common.value), choose);
      }
    case NewConfig(epochNr, m) =>
      if AcceptsMembership(s, i) {
        AdvanceSucceeds(p, s.(nextNewMembership := Some(m)), choose);
      }
    case ProtocolCheckpoint(c) => SortedEmptyIff(c.PreviousMembership());
    case CheckpointReceived(c) =>
    case CheckpointValidated(ok, c) =>
      if Installs(s, i) {
        InstallSucceeds(p, s, c, c.snapshot.epochData.leaderPolicy.policy, choose);
      }
  }

  ghost predicate HealthyRun(start: StableCheckpoint, choose: Chooser, moves: seq<Move>) {
    && HealthyCheckpoint(start) && start.snapshot.epochData.leaderPolicy.Encoded? && ProperChooser(choose)
    && forall k | 0 <= k < |moves| :: HealthyInput(moves[k].input) && ProperChooser(moves[k].choose)
  }

  lemma BeginSucceeds(p: Params, start: StableCheckpoint, choose: Chooser)
    requires HealthyRun(start, choose, [])
    ensures Begin(p, start, choose).Some? && Healthy(Begin(p, start, choose).value.s)
  {
    hide StartEpoch, ProperChooser, IL.Fitting, Weighty;
    StartSucceeds(p, New(start, start.snapshot.epochData.leaderPolicy.policy), start.Epoch(), choose);
  }

  lemma {:induction false} StaysHealthy(
      p: Params, start: StableCheckpoint, choose: Chooser, moves: seq<Move>, h: History)
    requires Plays(p, start, choose, moves, h) && HealthyRun(start, choose, moves)
    ensures Healthy(h.s)
    decreases |moves|
  {
    hide Step, Begin, ProperChooser, Healthy, HealthyInput, HealthyCheckpoint, Fails;
    if moves == [] {
      BeginSucceeds(p, start, choose);
    } else {
      var init, last := moves[..|moves| - 1], moves[|moves| - 1];
      var h0 := Play(p, start, choose, init).value;
      StaysHealthy(p, start, choose, init, h0);
      StepFailsIff(p, h0.s, last.input, last.choose);
    }
  }

  /** Over runs: with what the other modules promise, a run starts, and the next move of a run ends it in an error
      exactly for one of these reasons. */
  lemma FailsIff(p: Params, start: StableCheckpoint, choose: Chooser, moves: seq<Move>, h: History, last: Move)
    requires HealthyRun(start, choose, moves + [last]) && Plays(p, start, choose, moves, h)
    ensures Play(p, start, choose, moves + [last]).None? <==> Fails(h.s, last.input)
    ensures Play(p, start, choose, []).Some?
  {
    hide Step, Begin, ProperChooser, Healthy, HealthyInput, HealthyCheckpoint, Fails;
    var all := moves + [last];
    assert all[..|moves|] == moves && all[|moves|] == last;
    assert forall k | 0 <= k < |moves| :: moves[k] == all[k];
    StaysHealthy(p, start, choose, moves, h);
    StepFailsIff(p, h.s, last.input, last.choose);
    BeginSucceeds(p, start, choose);
  }
}
