/** What ISS asks of the modules around it (pkg/iss/iss.go): the verification of certificates, the validation of
    received checkpoints, agreement on stable ones and the removal of old state. Each request is made for its reason,
    for that only, and every time. From this follows the total order of what the orderers deliver. */
module IssRequests {
  import opened Lists
  import opened Quorums
  import opened Types
  import opened Segments
  import opened Iss
  import opened IssRuns
  import opened IssTheorems
  import opened IssOrder
  import opened IssProgress
  import LP = LeaderPolicies
  import SortedKeys

  // ---------------------------------------------------------------- requests in a trace

  predicate IsRequest(e: Event) {
    || e.VerifyCert? || e.ValidateCheckpoint? || e.NewPreprepareValidator? || e.NewChkpOrderer? || e.GarbageCollect?
    || e.PushPeriodically?
  }

  function RequestsIn(events: seq<Event>): seq<Event> {
    if events == [] then []
    else
      var last := events[|events| - 1];
      RequestsIn(events[..|events| - 1]) + (if IsRequest(last) then [last] else [])
  }

  lemma {:induction false} RequestsConcat(a: seq<Event>, b: seq<Event>)
    ensures RequestsIn(a + b) == RequestsIn(a) + RequestsIn(b)
    decreases |b|
  {
    if b == [] {
      assert a + b == a;
    } else {
      RequestsConcat(a, b[..|b| - 1]);
      assert (a + b)[..|a + b| - 1] == a + b[..|b| - 1];
    }
  }

  ghost predicate NoRequests(events: seq<Event>) {
    forall e | e in events :: !IsRequest(e)
  }

  ghost predicate OnlyRequests(events: seq<Event>) {
    forall e | e in events :: IsRequest(e)
  }

  lemma {:induction false} NoneIn(events: seq<Event>)
    requires NoRequests(events)
    ensures RequestsIn(events) == []
    decreases |events|
  {
    if events != [] {
      NoneIn(events[..|events| - 1]);
    }
  }

  lemma {:induction false} AllIn(events: seq<Event>)
    requires OnlyRequests(events)
    ensures RequestsIn(events) == events
    decreases |events|
  {
    hide IsRequest;
    if events != [] {
      var init, last := events[..|events| - 1], events[|events| - 1];
      AllIn(init);
      assert last in events;
      assert RequestsIn(events) == init + [last];
    }
  }

  // ---------------------------------------------------------------- what a step requests

  predicate ToVerify(i: Input) {
    i.SbDeliver? && !i.aborted && i.data.Cert?
  }

  /** The node with as many smaller members before it as the epoch number modulo the size says. */
  ghost predicate LeadsCheckpoint(c: StableCheckpoint, leader: NodeId) {
    var m := c.PreviousMembership();
    && leader in m && m != map[] && |Smaller(m, leader)| == c.Epoch() % |m|
  }

  ghost function Smaller(m: Membership, n: NodeId): set<NodeId> {
    set k | k in m && k < n
  }

  /** Everything older than the retained epochs is dropped in the modules listed. */
  ghost predicate DropsBelow(out: seq<Event>, index: nat, targets: set<Target>) {
    && (forall e | e in out :: ((e.GarbageCollect? && e.target in targets) || e.PushPeriodically?) && e.index == index)
    && (forall t | t in targets :: GarbageCollect(t, index) in out)
  }

  const ALL := {Timer, CheckpointInstances, Availability, Ordering, ChkpPreprepareValidators, BatchDb}
  const SHORT_LIVED := {Timer, CheckpointInstances, Availability, Ordering}

  /** The requests for an agreed checkpoint of this epoch. */
  ghost predicate Prunes(p: Params, out: seq<Event>, epoch: EpochNr) {
    if epoch <= p.retainedEpochs then out == []
    else
      && DropsBelow(out, epoch - p.retainedEpochs, ALL)
      && (exists e | e in out :: e.PushPeriodically?) && |out| == |ALL| + 1
  }

  /** The requests made for an input, given the current epoch, the last announced checkpoint, the newest pending
      checkpoint before it and the memberships of the epochs to come. */
  ghost predicate Makes(
      p: Params, epoch: EpochNr, announced: SeqNr, pending: SeqNr, ms: seq<Membership>, i: Input, out: seq<Event>)
  {
    match i
    case SbDeliver(sn, data, _, leader) => out == if ToVerify(i) then [VerifyCert(epoch, sn, data, leader)] else []
    case CheckpointReceived(c) => out == if c.Epoch() > epoch + 1 then [ValidateCheckpoint(c, epoch, ms)] else []
    case ProtocolCheckpoint(c) =>
      if c.sn <= pending then out == []
      else
        && |out| == 2 && out[0] == NewPreprepareValidator(c.Epoch(), c.PreviousMembership())
        && out[1].NewChkpOrderer? && out[1].epoch == c.Epoch() && out[1].chkp == c && LeadsCheckpoint(c, out[1].leader)
    case SbCheckpoint(common) =>
      common.Some? && if common.value.sn > announced then Prunes(p, out, common.value.Epoch()) else out == []
    case CheckpointValidated(ok, c) =>
      if ok && c.Epoch() > epoch + 1 && c.snapshot.epochData.leaderPolicy.Encoded?
      then DropsBelow(out, c.Epoch(), SHORT_LIVED) && |out| == |SHORT_LIVED| else out == []
    case _ => out == []
  }

  lemma AdvanceRequestsNothing(p: Params, s: State, choose: Chooser)
    requires s.nextNewMembership.Some? && AdvanceEpoch(p, s, choose).Ok?
    ensures NoRequests(AdvanceEpoch(p, s, choose).out)
  {
    hide SegmentsOf, EpochLen, LP.Reconfigure;
  }

  lemma ProcessRequestsNothing(p: Params, s: State, choose: Chooser)
    requires ProcessCommitted(p, s, choose).Ok?
    ensures RequestsIn(ProcessCommitted(p, s, choose).out) == []
  {
    hide AdvanceEpoch, CertEvents, Readable, Iss.Run, SuspectAll, Without;
    CertsCreateNothing(Iss.Run(s.commitLog, s.nextDeliveredSN), s.nextDeliveredSN);
    if EpochFinished(Drained(s)) {
      AdvanceRequestsNothing(p, Drained(s), choose);
    }
    NoneIn(ProcessCommitted(p, s, choose).out);
  }

  lemma StartRequestsNothing(p: Params, s: State, nr: EpochNr, leaders: seq<NodeId>)
    requires StartEpoch(p, s, nr, leaders).Ok?
    ensures NoRequests(StartEpoch(p, s, nr, leaders).out)
  {
    hide SegmentsOf, EpochLen;
  }

  lemma InstallRequests(p: Params, s: State, c: StableCheckpoint, policy: LeaderPolicy, choose: Chooser)
    requires Install(p, s, c, policy, choose).Ok?
    ensures RequestsIn(Install(p, s, c, policy, choose).out) == PruneAll(c.Epoch())
  {
    hide StartEpoch, RequestsIn;
    var o := StartEpoch(p, Installed(s, c, policy), c.Epoch(), choose(policy));
    StartRequestsNothing(p, Installed(s, c, policy), c.Epoch(), choose(policy));
    var before, after := [RestoreState(c)] + o.out + [StableChkp(c)], PruneAll(c.Epoch());
    NoneIn(before);
    AllIn(after);
    RequestsConcat(before, after);
  }

  lemma AllDropped(epoch: EpochNr)
    ensures DropsBelow(PruneAll(epoch), epoch, SHORT_LIVED) && |PruneAll(epoch)| == |SHORT_LIVED|
  {
    var out := PruneAll(epoch);
    assert out[0] in out && out[1] in out && out[2] in out && out[3] in out;
  }

  lemma OldDropped(p: Params, epoch: EpochNr)
    ensures Prunes(p, Prune(p, epoch), epoch)
  {
    var out := Prune(p, epoch);
    if epoch > p.retainedEpochs {
      assert out[0] in out && out[1] in out && out[2] in out && out[3] in out && out[4] in out && out[5] in out;
      assert out[6] in out;
    }
  }

  lemma CommonRequests(p: Params, s: State, c: StableCheckpoint, choose: Chooser)
    requires OnCommonCheckpoint(p, s, Some(c), choose).Ok? && c.sn > s.lastStable.sn
    ensures RequestsIn(OnCommonCheckpoint(p, s, Some(c), choose).out) == Prune(p, c.Epoch())
  {
    hide ProcessCommitted, RequestsIn;
    var o := ProcessCommitted(p, s.(lastStable := c), choose);
    ProcessRequestsNothing(p, s.(lastStable := c), choose);
    NoneIn([StableChkp(c)]);
    AllIn(Prune(p, c.Epoch()));
    RequestsConcat([StableChkp(c)], o.out);
    RequestsConcat([StableChkp(c)] + o.out, Prune(p, c.Epoch()));
  }

  /** The element at place i of a sorted list has i smaller ones. */
  lemma RankIsPlace(m: Membership, i: nat)
    requires i < |m|
    ensures
      var nodes := SortedKeys.Sorted(m.Keys);
      |nodes| == |m| && nodes[i] in m && |Smaller(m, nodes[i])| == i
  {
    hide SortedKeys.Sorted;
    SortedKeys.SortedAscends(m.Keys);
    SmallerBefore(m, SortedKeys.Sorted(m.Keys), i);
  }

  lemma SmallerBefore(m: Membership, nodes: seq<NodeId>, i: nat)
    requires i < |nodes| && Ascending(nodes) && Elements(nodes) == m.Keys
    ensures nodes[i] in m && |Smaller(m, nodes[i])| == i
  {
    assert nodes[i] in Elements(nodes);
    var before := nodes[..i];
    forall k ensures k in Smaller(m, nodes[i]) <==> k in Elements(before) {
      if k in Smaller(m, nodes[i]) {
        assert k in Elements(nodes);
        var j :| 0 <= j < |nodes| && nodes[j] == k;
        assert before[j] == k;
      }
      if k in before {
        var j :| 0 <= j < i && before[j] == k;
        assert nodes[j] in Elements(nodes);
      }
    }
    assert Smaller(m, nodes[i]) == Elements(before);
    DistinctSize(before);
  }

  lemma PendingRequests(s: State, c: StableCheckpoint, out: seq<Event>)
    requires OnProtocolCheckpoint(s, c).Ok? && out == OnProtocolCheckpoint(s, c).out
    ensures
      if c.sn <= s.lastPendingSN then out == []
      else
        && |out| == 2 && out[0] == NewPreprepareValidator(c.Epoch(), c.PreviousMembership())
        && out[1].NewChkpOrderer? && out[1].epoch == c.Epoch() && out[1].chkp == c && LeadsCheckpoint(c, out[1].leader)
  {
    hide SortedKeys.Sorted;
    var m := c.PreviousMembership();
    if c.sn > s.lastPendingSN {
      assert |SortedKeys.Sorted(m.Keys)| == |m.Keys| == |m|;
      RankIsPlace(m, c.Epoch() % |m|);
    }
  }

  lemma SbRequestsNothing(p: Params, s: State, i: Input, choose: Chooser)
    requires Step(p, s, i, choose).Ok? && OutcomeOf(i).Some?
    ensures RequestsIn(Step(p, s, i, choose).out) == []
  {
    hide ProcessCommitted, LP.Suspect, RequestsIn;
    var policy, sn := LP.Suspect(s.policy, s.epoch.nr, i.leader), i.sn;
    var lost := s.(policy := policy, commitLog := s.commitLog[sn := Entry(EMPTY, true, i.leader)]);
    if i.CertVerified? && i.valid {
      ProcessRequestsNothing(p, s.(commitLog := s.commitLog[sn := Entry(i.data, false, i.leader)]), choose);
    } else if i.SbDeliver? && i.aborted {
      ProcessRequestsNothing(p, s.(commitLog := s.commitLog[sn := Entry(i.data, true, i.leader)]), choose);
    } else {
      ProcessRequestsNothing(p, lost, choose);
    }
  }

  lemma StepMakes(p: Params, s: State, i: Input, choose: Chooser)
    requires Step(p, s, i, choose).Ok?
    ensures
      var out := RequestsIn(Step(p, s, i, choose).out);
      Makes(p, s.epoch.nr, s.lastStable.sn, s.lastPendingSN, s.memberships, i, out)
  {
    hide ProcessCommitted, AdvanceEpoch, Install, OnProtocolCheckpoint, RequestsIn, Insert, LeadsCheckpoint, Prunes;
    hide DropsBelow, LP.Suspect;
    var out := Step(p, s, i, choose).out;
    NoneIn([]);
    match i
    case SbDeliver(sn, data, aborted, leader) =>
      if ToVerify(i) {
        AllIn(out);
      } else {
        SbRequestsNothing(p, s, i, choose);
      }
    case CertVerified(_, _, _, _) => SbRequestsNothing(p, s, i, choose);
    case SbCheckpoint(common) =>
      if common.value.sn > s.lastStable.sn {
        CommonRequests(p, s, common.value, choose);
        OldDropped(p, common.value.Epoch());
      }
    case NewConfig(epochNr, m) =>
      var s1 := s.(nextNewMembership := Some(m));
      if AcceptsMembership(s, i) && EpochFinished(s1) {
        AdvanceRequestsNothing(p, s1, choose);
        NoneIn(out);
      }
    case ProtocolCheckpoint(c) =>
      PendingRequests(s, c, out);
      AllIn(out);
    case CheckpointReceived(c) => AllIn(out);
    case CheckpointValidated(ok, c) =>
      if Installs(s, i) {
        InstallRequests(p, s, c, c.snapshot.epochData.leaderPolicy.policy, choose);
        AllDropped(c.Epoch());
      }
  }

  // ---------------------------------------------------------------- over runs

  /** The newest of the stable checkpoints that the checkpoint protocol reported. */
  function NewestPending(moves: seq<Move>): SeqNr {
    if moves == [] then 0
    else
      var before, i := NewestPending(moves[..|moves| - 1]), moves[|moves| - 1].input;
      if i.ProtocolCheckpoint? && i.chkp.sn > before then i.chkp.sn else before
  }

  lemma AdvanceKeepsPending(p: Params, s: State, choose: Chooser)
    requires s.nextNewMembership.Some? && AdvanceEpoch(p, s, choose).Ok?
    ensures AdvanceEpoch(p, s, choose).s.lastPendingSN == s.lastPendingSN
  {
    hide SegmentsOf, EpochLen, OrdererEvents, LP.Reconfigure;
  }

  lemma ProcessKeepsPending(p: Params, s: State, choose: Chooser)
    requires ProcessCommitted(p, s, choose).Ok?
    ensures ProcessCommitted(p, s, choose).s.lastPendingSN == s.lastPendingSN
  {
    hide AdvanceEpoch, CertEvents, Readable, Iss.Run, SuspectAll, Without;
    if EpochFinished(Drained(s)) {
      AdvanceKeepsPending(p, Drained(s), choose);
    }
  }

  lemma StepKeepsPending(p: Params, s: State, i: Input, choose: Chooser)
    requires Step(p, s, i, choose).Ok?
    ensures
      Step(p, s, i, choose).s.lastPendingSN ==
        if i.ProtocolCheckpoint? && i.chkp.sn > s.lastPendingSN then i.chkp.sn else s.lastPendingSN
  {
    hide ProcessCommitted, AdvanceEpoch, LP.Suspect, SortedKeys.Sorted, SegmentsOf, EpochLen, OrdererEvents;
    match i
    case SbDeliver(sn, data, aborted, leader) =>
      var policy := LP.Suspect(s.policy, s.epoch.nr, leader);
      if aborted {
        ProcessKeepsPending(p, s.(commitLog := s.commitLog[sn := Entry(data, true, leader)]), choose);
      } else if data.Unreadable? {
        var log := s.commitLog[sn := Entry(EMPTY, true, leader)];
        ProcessKeepsPending(p, s.(policy := policy, commitLog := log), choose);
      }
    case CertVerified(valid, sn, data, leader) =>
      var policy := LP.Suspect(s.policy, s.epoch.nr, leader);
      if valid {
        ProcessKeepsPending(p, s.(commitLog := s.commitLog[sn := Entry(data, false, leader)]), choose);
      } else {
        var log := s.commitLog[sn := Entry(EMPTY, true, leader)];
        ProcessKeepsPending(p, s.(policy := policy, commitLog := log), choose);
      }
    case SbCheckpoint(common) =>
      if common.value.sn > s.lastStable.sn {
        ProcessKeepsPending(p, s.(lastStable := common.value), choose);
      }
    case NewConfig(epochNr, m) =>
      var s1 := s.(nextNewMembership := Some(m));
      if EpochFinished(s1) && AcceptsMembership(s, i) {
        AdvanceKeepsPending(p, s1, choose);
      }
    case _ =>
  }

  lemma {:induction false} PendingIsNewest(
      p: Params, start: StableCheckpoint, choose: Chooser, moves: seq<Move>, h: History)
    requires Plays(p, start, choose, moves, h)
    ensures h.s.lastPendingSN == NewestPending(moves)
    decreases |moves|
  {
    hide Step, StartEpoch;
    if moves == [] {
      StartsWithoutPending(p, start, choose);
    } else {
      var init, last := moves[..|moves| - 1], moves[|moves| - 1];
      var h0 := Play(p, start, choose, init).value;
      PendingIsNewest(p, start, choose, init, h0);
      StepKeepsPending(p, h0.s, last.input, last.choose);
    }
  }

  lemma StartsWithoutPending(p: Params, start: StableCheckpoint, choose: Chooser)
    requires Begin(p, start, choose).Some?
    ensures Begin(p, start, choose).value.s.lastPendingSN == 0
  {
    hide SegmentsOf, EpochLen, OrdererEvents;
  }

  /** In every run, each move makes exactly the requests that it has to. Readable data of an orderer is sent to be
      verified; a checkpoint more than one epoch ahead is sent to be validated, with the memberships of the coming
      epochs; a stable checkpoint newer than all those before it is put to agreement, led by the members in turn; and an
      agreed or installed one lets old state be dropped. */
  lemma RequestsAreMade(
      p: Params, start: StableCheckpoint, choose: Chooser, moves: seq<Move>, last: Move, h: History, h1: History)
    requires Plays(p, start, choose, moves, h) && Plays(p, start, choose, moves + [last], h1)
    ensures h.trace <= h1.trace
    ensures
      Makes(p, CurrentEpoch(h.trace), LastAnnounced(h.trace), NewestPending(moves), h.s.memberships, last.input,
            RequestsIn(h1.trace[|h.trace|..]))
  {
    hide Step, Begin, Makes, CurrentEpoch, LastAnnounced, RequestsIn;
    assert (moves + [last])[..|moves|] == moves;
    PendingIsNewest(p, start, choose, moves, h);
    StateReadsAnnounced(p, start, choose, moves, h);
    StepMakes(p, h.s, last.input, last.choose);
  }

  // ---------------------------------------------------------------- verifications

  datatype Context = Context(sn: SeqNr, data: SbData, leader: NodeId)

  /** The certificates sent to be verified, in order. */
  function Verifications(trace: seq<Event>): seq<Context> {
    if trace == [] then []
    else
      var before := Verifications(trace[..|trace| - 1]);
      match trace[|trace| - 1]
      case VerifyCert(_, sn, data, leader) => before + [Context(sn, data, leader)]
      case _ => before
  }

  /** The readable data that orderers delivered, in order. */
  function ToBeVerified(moves: seq<Move>): seq<Context> {
    if moves == [] then []
    else
      var i := moves[|moves| - 1].input;
      ToBeVerified(moves[..|moves| - 1]) + (if ToVerify(i) then [Context(i.sn, i.data, i.leader)] else [])
  }

  lemma {:induction false} VerificationsConcat(a: seq<Event>, b: seq<Event>)
    ensures Verifications(a + b) == Verifications(a) + Verifications(b)
    decreases |b|
  {
    if b == [] {
      assert a + b == a;
    } else {
      VerificationsConcat(a, b[..|b| - 1]);
      assert (a + b)[..|a + b| - 1] == a + b[..|b| - 1];
    }
  }

  lemma {:induction false} VerificationsAreRequests(events: seq<Event>)
    ensures Verifications(events) == Verifications(RequestsIn(events))
    decreases |events|
  {
    if events != [] {
      var init, last := events[..|events| - 1], events[|events| - 1];
      VerificationsAreRequests(init);
      if IsRequest(last) {
        var all := RequestsIn(init) + [last];
        assert all[..|all| - 1] == RequestsIn(init);
      } else {
        assert RequestsIn(init) + [] == RequestsIn(init);
      }
    }
  }

  lemma {:induction false} NothingToVerify(events: seq<Event>)
    requires forall e | e in events :: !e.VerifyCert?
    ensures Verifications(events) == []
    decreases |events|
  {
    if events != [] {
      NothingToVerify(events[..|events| - 1]);
      assert events[|events| - 1] in events;
    }
  }

  lemma MakesVerifications(
      p: Params, epoch: EpochNr, announced: SeqNr, pending: SeqNr, ms: seq<Membership>, i: Input, out: seq<Event>)
    requires Makes(p, epoch, announced, pending, ms, i, out)
    ensures Verifications(out) == if ToVerify(i) then [Context(i.sn, i.data, i.leader)] else []
  {
    hide LeadsCheckpoint, Verifications;
    if ToVerify(i) {
      OneVerification(epoch, i);
    } else {
      NothingToVerify(out);
    }
  }

  lemma OneVerification(epoch: EpochNr, i: Input)
    requires ToVerify(i)
    ensures Verifications([VerifyCert(epoch, i.sn, i.data, i.leader)]) == [Context(i.sn, i.data, i.leader)]
  {
    var e := VerifyCert(epoch, i.sn, i.data, i.leader);
    assert [e][..0] == [];
  }

  /** In every run, what is sent to be verified is exactly the readable data that orderers delivered, each once and in
      order, with its sequence number and leader. */
  lemma {:induction false} DeliveriesAreVerified(
      p: Params, start: StableCheckpoint, choose: Chooser, moves: seq<Move>, h: History)
    requires Plays(p, start, choose, moves, h)
    ensures Verifications(h.trace) == ToBeVerified(moves)
    decreases |moves|
  {
    hide Step, StartEpoch, Makes, RequestsIn, Verifications;
    if moves == [] {
      var policy := start.snapshot.epochData.leaderPolicy.policy;
      StartRequestsNothing(p, New(start, policy), start.Epoch(), choose(policy));
      assert forall e | e in h.trace :: !e.VerifyCert?;
      NothingToVerify(h.trace);
    } else {
      var init, last := moves[..|moves| - 1], moves[|moves| - 1];
      var h0 := Play(p, start, choose, init).value;
      DeliveriesAreVerified(p, start, choose, init, h0);
      StepVerifies(p, h0.s, last.input, last.choose);
      VerificationsConcat(h0.trace, Step(p, h0.s, last.input, last.choose).out);
    }
  }

  lemma StepVerifies(p: Params, s: State, i: Input, choose: Chooser)
    requires Step(p, s, i, choose).Ok?
    ensures
      Verifications(Step(p, s, i, choose).out) == if ToVerify(i) then [Context(i.sn, i.data, i.leader)] else []
  {
    hide Step, Makes, RequestsIn, Verifications;
    var out := Step(p, s, i, choose).out;
    StepMakes(p, s, i, choose);
    VerificationsAreRequests(out);
    MakesVerifications(p, s.epoch.nr, s.lastStable.sn, s.lastPendingSN, s.memberships, i, RequestsIn(out));
  }

  lemma {:induction false} VerificationIn(trace: seq<Event>, e: Event)
    requires e in trace && e.VerifyCert?
    ensures Context(e.sn, e.data, e.leader) in Verifications(trace)
    decreases |trace|
  {
    var init := trace[..|trace| - 1];
    if e in init {
      VerificationIn(init, e);
    }
  }

  lemma {:induction false} WasDelivered(moves: seq<Move>, x: Context) returns (m: nat)
    requires x in ToBeVerified(moves)
    ensures m < |moves| && moves[m].input == SbDeliver(x.sn, x.data, false, x.leader) && x.data.Cert?
    decreases |moves|
  {
    var init, i := moves[..|moves| - 1], moves[|moves| - 1].input;
    if x in ToBeVerified(init) {
      m := WasDelivered(init, x);
    } else {
      m := |init|;
    }
  }

  // ---------------------------------------------------------------- total order

  /** What the orderers agreed to deliver at a sequence number. */
  datatype Delivery = Delivery(data: SbData, aborted: bool)

  type Ordered = SeqNr -> Delivery

  /** Whether the availability layer finds the certificate valid. */
  type Verdicts = (SeqNr, SbData) -> bool

  /** The outcome is an answer to a request. */
  ghost predicate Answers(trace: seq<Event>, i: Input)
    requires i.CertVerified?
  {
    exists e | e in trace :: e.VerifyCert? && e.sn == i.sn && e.data == i.data && e.leader == i.leader
  }

  ghost predicate OrderedInput(trace: seq<Event>, i: Input, ordered: Ordered, verdicts: Verdicts) {
    match i
    case SbDeliver(sn, data, aborted, _) =>
      aborted == ordered(sn).aborted && (!aborted ==> data == ordered(sn).data)
    case CertVerified(valid, sn, data, _) => Answers(trace, i) && valid == verdicts(sn, data)
    case _ => true
  }

  /** The orderers deliver what they agreed on, and the availability layer answers the requests it gets. */
  ghost predicate OrderedRun(
      p: Params, start: StableCheckpoint, choose: Chooser, moves: seq<Move>, ordered: Ordered, verdicts: Verdicts)
  {
    forall n, h | 0 <= n < |moves| && Plays(p, start, choose, moves[..n], h) ::
      OrderedInput(h.trace, moves[n].input, ordered, verdicts)
  }

  /** What the application has to get: the data agreed on if it is a valid certificate, and nothing otherwise. */
  function Due(ordered: Ordered, verdicts: Verdicts): Decided {
    (sn: SeqNr) =>
      var d := ordered(sn);
      if !d.aborted && d.data.Cert? && verdicts(sn, d.data) then Some(d.data) else None
  }

  /** Every outcome comes from what the orderers agreed on. */
  lemma OrderedRunsAgree(
      p: Params, start: StableCheckpoint, choose: Chooser, moves: seq<Move>, h: History, ordered: Ordered,
      verdicts: Verdicts)
    requires Plays(p, start, choose, moves, h) && OrderedRun(p, start, choose, moves, ordered, verdicts)
    ensures AllAgree(moves, Due(ordered, verdicts))
  {
    hide Plays;
    forall n | 0 <= n < |moves| ensures Agrees(moves[n].input, Due(ordered, verdicts)) {
      var hn := PrefixPlays(p, start, choose, moves, h, n);
      assert OrderedInput(hn.trace, moves[n].input, ordered, verdicts);
      if moves[n].input.CertVerified? {
        AnswerAgrees(p, start, choose, moves, h, n, hn, ordered, verdicts);
      }
    }
  }

  lemma AnswerAgrees(
      p: Params, start: StableCheckpoint, choose: Chooser, moves: seq<Move>, h: History, n: nat, hn: History,
      ordered: Ordered, verdicts: Verdicts)
    requires Plays(p, start, choose, moves, h) && OrderedRun(p, start, choose, moves, ordered, verdicts)
    requires n < |moves| && Plays(p, start, choose, moves[..n], hn) && moves[n].input.CertVerified?
    ensures Agrees(moves[n].input, Due(ordered, verdicts)) && moves[n].input.data.Cert?
  {
    hide Plays, Verifications, ToBeVerified;
    var i := moves[n].input;
    assert OrderedInput(hn.trace, i, ordered, verdicts);
    var e :| e in hn.trace && e.VerifyCert? && e.sn == i.sn && e.data == i.data && e.leader == i.leader;
    VerificationIn(hn.trace, e);
    DeliveriesAreVerified(p, start, choose, moves[..n], hn);
    var m := WasDelivered(moves[..n], Context(i.sn, i.data, i.leader));
    var hm := PrefixPlays(p, start, choose, moves, h, m);
    assert OrderedInput(hm.trace, moves[m].input, ordered, verdicts);
  }

  /** Total order: two nodes whose orderers deliver what they agreed on, and whose availability layers come to the same
      verdicts, never deliver different certificates at the same sequence number, and nothing but what is due. */
  lemma TotalOrder(
      p: Params, start: StableCheckpoint, choose: Chooser, moves: seq<Move>, h: History, cert: Option<SbData>,
      p': Params, start': StableCheckpoint, choose': Chooser, moves': seq<Move>, h': History, cert': Option<SbData>,
      ordered: Ordered, verdicts: Verdicts, sn: SeqNr)
    requires Plays(p, start, choose, moves, h) && OrderedRun(p, start, choose, moves, ordered, verdicts)
    requires Plays(p', start', choose', moves', h') && OrderedRun(p', start', choose', moves', ordered, verdicts)
    requires DeliveredAt(h.trace, sn, cert) && DeliveredAt(h'.trace, sn, cert')
    ensures cert == cert' == Due(ordered, verdicts)(sn)
  {
    hide Plays, AllAgree, DeliveredAt, OrderedRun;
    OrderedRunsAgree(p, start, choose, moves, h, ordered, verdicts);
    OrderedRunsAgree(p', start', choose', moves', h', ordered, verdicts);
    OnlyDecided(p, start, choose, moves, h, Due(ordered, verdicts), sn, cert);
    OnlyDecided(p', start', choose', moves', h', Due(ordered, verdicts), sn, cert');
  }

  /** And what is due is delivered: with the checkpoint of the current epoch in place, every number up to the first one
      without an outcome has been, with the certificate agreed on. */
  lemma DueIsDelivered(
      p: Params, start: StableCheckpoint, choose: Chooser, moves: seq<Move>, h: History, ordered: Ordered,
      verdicts: Verdicts, to: SeqNr, sn: SeqNr)
    requires Plays(p, start, choose, moves, h) && OrderedRun(p, start, choose, moves, ordered, verdicts)
    requires CheckpointInPlace(h.trace) && Base(h.trace) <= sn < to
    requires forall k | Base(h.trace) <= k < to :: Received(p, start, choose, moves, h.trace, k)
    ensures DeliveredAt(h.trace, sn, Due(ordered, verdicts)(sn))
  {
    hide Plays, AllAgree, DeliveredAt, OrderedRun, Received, Base, Delivered, EpochStart, EpochSize;
    OrderedRunsAgree(p, start, choose, moves, h, ordered, verdicts);
    GapFreeOutcomesAreDelivered(p, start, choose, moves, h, to);
    GapFreeDelivery(p, start, choose, moves, h);
    DeliveredAsDecided(p, start, choose, moves, h, Due(ordered, verdicts), sn);
  }

  // ---------------------------------------------------------------- epochs that are kept

  /** The epochs started since the last restore that no later request has dropped. */
  function Keep(kept: set<EpochNr>, events: seq<Event>): set<EpochNr> {
    if events == [] then kept
    else
      var before := Keep(kept, events[..|events| - 1]);
      match events[|events| - 1]
      case RestoreState(_) => {}
      case NewEpoch(nr) => before + {nr}
      case PushPeriodically(index) => set e | e in before && e >= index
      case _ => before
  }

  lemma {:induction false} KeepConcat(kept: set<EpochNr>, a: seq<Event>, b: seq<Event>)
    ensures Keep(kept, a + b) == Keep(Keep(kept, a), b)
    decreases |b|
  {
    if b == [] {
      assert a + b == a;
    } else {
      KeepConcat(kept, a, b[..|b| - 1]);
      assert (a + b)[..|a + b| - 1] == a + b[..|b| - 1];
    }
  }

  lemma {:induction false} KeepAll(kept: set<EpochNr>, events: seq<Event>)
    requires forall e | e in events :: !e.RestoreState? && !e.NewEpoch? && !e.PushPeriodically?
    ensures Keep(kept, events) == kept
    decreases |events|
  {
    if events != [] {
      KeepAll(kept, events[..|events| - 1]);
      assert events[|events| - 1] in events;
    }
  }

  lemma KeepOne(kept: set<EpochNr>, e: Event)
    ensures e.RestoreState? ==> Keep(kept, [e]) == {}
    ensures e.NewEpoch? ==> Keep(kept, [e]) == kept + {e.nr}
    ensures e.PushPeriodically? ==> Keep(kept, [e]) == set x | x in kept && x >= e.index
  {
    assert [e][..0] == [];
  }

  ghost predicate Keeps(kept: set<EpochNr>, o: Outcome) {
    o.Ok? ==> o.s.epochs == Keep(kept, o.out)
  }

  lemma StartKeeps(p: Params, s: State, nr: EpochNr, leaders: seq<NodeId>)
    ensures Keeps(s.epochs, StartEpoch(p, s, nr, leaders))
  {
    hide SegmentsOf, EpochLen, Keep;
    var o := StartEpoch(p, s, nr, leaders);
    if o.Ok? {
      assert o.out == [NewEpoch(nr)] + o.out[1..];
      KeepConcat(s.epochs, [NewEpoch(nr)], o.out[1..]);
      KeepOne(s.epochs, NewEpoch(nr));
      KeepAll(s.epochs + {nr}, o.out[1..]);
    }
  }

  lemma AdvanceKeeps(p: Params, s: State, choose: Chooser)
    requires s.nextNewMembership.Some?
    ensures Keeps(s.epochs, AdvanceEpoch(p, s, choose))
  {
    hide StartEpoch, LP.Reconfigure, Keep;
    if AdvanceEpoch(p, s, choose).Ok? {
      var memberships := s.memberships[1..] + [s.nextNewMembership.value];
      var policy := LP.Reconfigure(s.policy, memberships[0]);
      var s1 := s.(memberships := memberships, nextNewMembership := None, policy := policy);
      var nr := s.epoch.nr + 1;
      StartKeeps(p, s1, nr, choose(policy));
      var o := StartEpoch(p, s1, nr, choose(policy));
      var more := [NewChkpInstance(ChkpParams(p, o.s, s.memberships[0])), SnapshotRequest(nr)];
      KeepConcat(s.epochs, o.out, more);
      KeepAll(o.s.epochs, more);
    }
  }

  lemma ProcessKeepsEpochs(p: Params, s: State, choose: Chooser)
    ensures Keeps(s.epochs, ProcessCommitted(p, s, choose))
  {
    hide AdvanceEpoch, CertEvents, Readable, Iss.Run, SuspectAll, Without, Keep;
    var certs := CertEvents(Iss.Run(s.commitLog, s.nextDeliveredSN), s.nextDeliveredSN);
    CertsCreateNothing(Iss.Run(s.commitLog, s.nextDeliveredSN), s.nextDeliveredSN);
    KeepAll(s.epochs, certs);
    KeepAll(s.epochs, []);
    if EpochFinished(Drained(s)) && AdvanceEpoch(p, Drained(s), choose).Ok? {
      AdvanceKeeps(p, Drained(s), choose);
      KeepConcat(s.epochs, certs, AdvanceEpoch(p, Drained(s), choose).out);
    }
  }

  lemma PruneKeeps(p: Params, s: State, epoch: EpochNr)
    ensures PruneEpochs(p, s, epoch).epochs == Keep(s.epochs, Prune(p, epoch))
  {
    hide Keep;
    var out := Prune(p, epoch);
    if epoch > p.retainedEpochs {
      assert out == out[..6] + [out[6]];
      KeepConcat(s.epochs, out[..6], [out[6]]);
      KeepAll(s.epochs, out[..6]);
      KeepOne(s.epochs, out[6]);
    } else {
      KeepAll(s.epochs, []);
    }
  }

  lemma CommonKeeps(p: Params, s: State, common: Option<StableCheckpoint>, choose: Chooser)
    ensures Keeps(s.epochs, OnCommonCheckpoint(p, s, common, choose))
  {
    hide ProcessCommitted, Keep, Prune, PruneEpochs;
    KeepAll(s.epochs, []);
    if common.Some? && ProcessCommitted(p, s.(lastStable := common.value), choose).Ok? {
      var c := common.value;
      var o := ProcessCommitted(p, s.(lastStable := c), choose);
      ProcessKeepsEpochs(p, s.(lastStable := c), choose);
      KeepAll(s.epochs, [StableChkp(c)]);
      KeepConcat(s.epochs, [StableChkp(c)], o.out);
      KeepConcat(s.epochs, [StableChkp(c)] + o.out, Prune(p, c.Epoch()));
      PruneKeeps(p, o.s, c.Epoch());
    }
  }

  lemma InstallKeeps(p: Params, s: State, c: StableCheckpoint, policy: LeaderPolicy, choose: Chooser)
    ensures Keeps(s.epochs, Install(p, s, c, policy, choose))
  {
    hide StartEpoch, Keep;
    var o := StartEpoch(p, Installed(s, c, policy), c.Epoch(), choose(policy));
    if o.Ok? {
      StartKeeps(p, Installed(s, c, policy), c.Epoch(), choose(policy));
      var restore, more := [RestoreState(c)], [StableChkp(c)] + PruneAll(c.Epoch());
      KeepOne(s.epochs, RestoreState(c));
      KeepConcat(s.epochs, restore, o.out);
      KeepConcat(s.epochs, restore + o.out, more);
      KeepAll(o.s.epochs, more);
      assert restore + o.out + more == restore + o.out + [StableChkp(c)] + PruneAll(c.Epoch());
    }
  }

  lemma StepKeeps(p: Params, s: State, i: Input, choose: Chooser)
    ensures Keeps(s.epochs, Step(p, s, i, choose))
  {
    hide ProcessCommitted, AdvanceEpoch, OnCommonCheckpoint, Install, LP.Suspect, SortedKeys.Sorted, Keep;
    KeepAll(s.epochs, []);
    match i
    case SbDeliver(sn, data, aborted, leader) =>
      var policy := LP.Suspect(s.policy, s.epoch.nr, leader);
      KeepAll(s.epochs, [VerifyCert(s.epoch.nr, sn, data, leader)]);
      ProcessKeepsEpochs(p, s.(commitLog := s.commitLog[sn := Entry(data, true, leader)]), choose);
      ProcessKeepsEpochs(p, s.(policy := policy, commitLog := s.commitLog[sn := Entry(EMPTY, true, leader)]), choose);
    case CertVerified(valid, sn, data, leader) =>
      var policy := LP.Suspect(s.policy, s.epoch.nr, leader);
      ProcessKeepsEpochs(p, s.(commitLog := s.commitLog[sn := Entry(data, false, leader)]), choose);
      ProcessKeepsEpochs(p, s.(policy := policy, commitLog := s.commitLog[sn := Entry(EMPTY, true, leader)]), choose);
    case SbCheckpoint(common) => CommonKeeps(p, s, common, choose);
    case NewConfig(epochNr, m) => AdvanceKeeps(p, s.(nextNewMembership := Some(m)), choose);
    case CheckpointValidated(ok, chkp) =>
      if Installs(s, i) {
        InstallKeeps(p, s, chkp, chkp.snapshot.epochData.leaderPolicy.policy, choose);
      }
    case _ =>
      var o := Step(p, s, i, choose);
      if o.Ok? {
        KeepAll(s.epochs, o.out);
      }
  }

  /** In every run, state is kept for the epochs started since the last restore that were not dropped. */
  lemma {:induction false} KeepsRecentEpochs(
      p: Params, start: StableCheckpoint, choose: Chooser, moves: seq<Move>, h: History)
    requires Plays(p, start, choose, moves, h)
    ensures h.s.epochs == Keep({}, h.trace)
    decreases |moves|
  {
    hide Step, StartEpoch, Keep;
    if moves == [] {
      var policy := start.snapshot.epochData.leaderPolicy.policy;
      StartKeeps(p, New(start, policy), start.Epoch(), choose(policy));
      KeepOne({}, RestoreState(start));
      KeepConcat({}, [RestoreState(start)], StartEpoch(p, New(start, policy), start.Epoch(), choose(policy)).out);
    } else {
      var init, last := moves[..|moves| - 1], moves[|moves| - 1];
      var h0 := Play(p, start, choose, init).value;
      KeepsRecentEpochs(p, start, choose, init, h0);
      StepKeeps(p, h0.s, last.input, last.choose);
      KeepConcat({}, h0.trace, Step(p, h0.s, last.input, last.choose).out);
    }
  }
}
