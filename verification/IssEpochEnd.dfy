/** When delivery stays within the epoch, exactly, and what it means if it does not (pkg/iss/iss.go). */
module IssEpochEnd {
  import opened Quorums
  import opened Types
  import opened Segments
  import opened Iss
  import opened IssRuns
  import opened IssTheorems
  import LP = LeaderPolicies
  import SortedKeys

  // ---------------------------------------------------------------- one input

  ghost predicate InEpoch(s: State) {
    s.nextDeliveredSN <= s.newEpochSN
  }

  /** Delivery stops at the first missing number and not before. */
  lemma {:induction false} RunStopsAt(log: map<SeqNr, Entry>, next: SeqNr, sn: SeqNr)
    requires next <= sn
    ensures sn !in log ==> next + |Iss.Run(log, next)| <= sn
    ensures (forall k | next <= k <= sn :: k in log) ==> next + |Iss.Run(log, next)| > sn
    decreases |log|
  {
    if next in log && next < sn {
      RunStopsAt(log - {next}, next + 1, sn);
    }
  }

  lemma AdvanceKeepsNext(p: Params, s: State, choose: Chooser)
    requires s.nextNewMembership.Some? && AdvanceEpoch(p, s, choose).Ok?
    ensures
      var o := AdvanceEpoch(p, s, choose);
      o.s.nextDeliveredSN == s.nextDeliveredSN && o.s.newEpochSN >= s.newEpochSN
  {
    hide SegmentsOf, EpochLen, OrdererEvents, LP.Reconfigure;
  }

  /** The log holds every number from the next one up to newEpochSN, the first one beyond the epoch, except perhaps
      `but`. */
  ghost predicate FilledBut(s: State, but: Option<SeqNr>) {
    forall k | s.nextDeliveredSN <= k <= s.newEpochSN :: k in s.commitLog || Some(k) == but
  }

  /** Delivering passes the end of the epoch exactly if the epoch's checkpoint and all these numbers are there. */
  lemma ProcessStaysInEpochIff(p: Params, s: State, choose: Chooser)
    requires InEpoch(s) && ProcessCommitted(p, s, choose).Ok?
    ensures InEpoch(ProcessCommitted(p, s, choose).s) <==> !(HasEpochCheckpoint(s) && FilledBut(s, None))
  {
    hide AdvanceEpoch, CertEvents, Readable, Iss.Run, SuspectAll, Without;
    RunStopsAt(s.commitLog, s.nextDeliveredSN, s.newEpochSN);
    if !FilledBut(s, None) {
      var k :| s.nextDeliveredSN <= k <= s.newEpochSN && k !in s.commitLog;
      RunStopsAt(s.commitLog, s.nextDeliveredSN, k);
    }
    if EpochFinished(Drained(s)) {
      AdvanceKeepsNext(p, Drained(s), choose);
    }
  }

  lemma InsertStaysInEpochIff(p: Params, s: State, sn: SeqNr, e: Entry, choose: Chooser)
    requires InEpoch(s) && Insert(p, s, sn, e, choose).Ok?
    ensures InEpoch(Insert(p, s, sn, e, choose).s) <==> !(HasEpochCheckpoint(s) && FilledBut(s, Some(sn)))
  {
    hide ProcessCommitted;
    var s1 := s.(commitLog := s.commitLog[sn := e]);
    ProcessStaysInEpochIff(p, s1, choose);
    assert FilledBut(s1, None) <==> FilledBut(s, Some(sn));
  }

  /** What takes delivery past the end of the epoch: an outcome that fills the last gap up to that end, with the
      epoch's checkpoint in place, or that checkpoint, with no gap left. */
  ghost predicate PassesEnd(s: State, i: Input) {
    match i
    case SbDeliver(sn, data, aborted, _) =>
      (aborted || data.Unreadable?) && HasEpochCheckpoint(s) && FilledBut(s, Some(sn))
    case CertVerified(_, sn, _, _) => HasEpochCheckpoint(s) && FilledBut(s, Some(sn))
    case SbCheckpoint(common) =>
      common.Some? && s.lastStable.sn < common.value.sn == s.epoch.firstSN && FilledBut(s, None)
    case _ => false
  }

  lemma CommonStaysInEpochIff(p: Params, s: State, chkp: StableCheckpoint, choose: Chooser)
    requires InEpoch(s) && OnCommonCheckpoint(p, s, Some(chkp), choose).Ok?
    ensures InEpoch(OnCommonCheckpoint(p, s, Some(chkp), choose).s) <==> !PassesEnd(s, SbCheckpoint(Some(chkp)))
  {
    hide ProcessCommitted;
    if chkp.sn > s.lastStable.sn {
      var s1 := s.(lastStable := chkp);
      ProcessStaysInEpochIff(p, s1, choose);
      assert FilledBut(s1, None) <==> FilledBut(s, None);
    }
  }

  lemma InstallStaysInEpoch(p: Params, s: State, chkp: StableCheckpoint, policy: LeaderPolicy, choose: Chooser)
    requires Install(p, s, chkp, policy, choose).Ok?
    ensures InEpoch(Install(p, s, chkp, policy, choose).s)
  {
    hide SegmentsOf, EpochLen, OrdererEvents;
  }

  /** Exactly when handling an input takes delivery past the end of the epoch, for every state within it. */
  lemma StepStaysInEpochIff(p: Params, s: State, i: Input, choose: Chooser)
    requires InEpoch(s) && Step(p, s, i, choose).Ok?
    ensures InEpoch(Step(p, s, i, choose).s) <==> !PassesEnd(s, i)
  {
    hide Insert, OnCommonCheckpoint, AdvanceEpoch, Install, FilledBut, LP.Suspect, SortedKeys.Sorted;
    match i
    case SbDeliver(sn, data, aborted, leader) =>
      if aborted {
        InsertStaysInEpochIff(p, s, sn, Entry(data, true, leader), choose);
      } else if data.Unreadable? {
        SuspectedStaysInEpochIff(p, s, sn, leader, choose);
      }
    case CertVerified(valid, sn, data, leader) =>
      if valid {
        InsertStaysInEpochIff(p, s, sn, Entry(data, false, leader), choose);
      } else {
        SuspectedStaysInEpochIff(p, s, sn, leader, choose);
      }
    case SbCheckpoint(common) =>
      if common.Some? {
        CommonStaysInEpochIff(p, s, common.value, choose);
      } else {
        NothingAgreed(p, s, choose);
      }
    case NewConfig(epochNr, m) =>
      var s1 := s.(nextNewMembership := Some(m));
      if AcceptsMembership(s, i) && EpochFinished(s1) {
        AdvanceKeepsNext(p, s1, choose);
      }
    case CheckpointValidated(ok, chkp) =>
      if Installs(s, i) {
        InstallStaysInEpoch(p, s, chkp, chkp.snapshot.epochData.leaderPolicy.policy, choose);
      }
    case _ =>
  }

  lemma NothingAgreed(p: Params, s: State, choose: Chooser)
    ensures OnCommonCheckpoint(p, s, None, choose) == Error
  {}

  lemma SuspectedStaysInEpochIff(p: Params, s: State, sn: SeqNr, leader: NodeId, choose: Chooser)
    requires InEpoch(s)
    ensures
      var s1 := s.(policy := LP.Suspect(s.policy, s.epoch.nr, leader));
      var o := Insert(p, s1, sn, Entry(EMPTY, true, leader), choose);
      o.Ok? ==> (InEpoch(o.s) <==> !(HasEpochCheckpoint(s) && FilledBut(s, Some(sn))))
  {
    hide Insert, LP.Suspect;
    var s1 := s.(policy := LP.Suspect(s.policy, s.epoch.nr, leader));
    if Insert(p, s1, sn, Entry(EMPTY, true, leader), choose).Ok? {
      InsertStaysInEpochIff(p, s1, sn, Entry(EMPTY, true, leader), choose);
    }
    assert FilledBut(s1, Some(sn)) <==> FilledBut(s, Some(sn));
  }

  // ---------------------------------------------------------------- runs

  /** The numbers delivered since the restore do not go beyond what the orderers of the epoch were given. */
  ghost predicate StaysInEpoch(trace: seq<Event>) {
    Base(trace) + |Delivered(trace)| <= EpochStart(trace) + EpochSize(trace)
  }

  ghost predicate AlwaysInEpoch(p: Params, start: StableCheckpoint, choose: Chooser, moves: seq<Move>) {
    forall n, h | 0 <= n <= |moves| && Plays(p, start, choose, moves[..n], h) :: StaysInEpoch(h.trace)
  }

  ghost predicate NeverPasses(p: Params, start: StableCheckpoint, choose: Chooser, moves: seq<Move>) {
    forall n, h | 0 <= n < |moves| && Plays(p, start, choose, moves[..n], h) :: !PassesEnd(h.s, moves[n].input)
  }

  lemma TraceTells(p: Params, start: StableCheckpoint, choose: Chooser, moves: seq<Move>, h: History)
    requires Plays(p, start, choose, moves, h)
    ensures StaysInEpoch(h.trace) <==> InEpoch(h.s)
  {
    hide Plays, Base, Delivered, EpochStart, EpochSize;
    GapFreeDelivery(p, start, choose, moves, h);
  }

  lemma LastMove(p: Params, start: StableCheckpoint, choose: Chooser, moves: seq<Move>, h: History)
    returns (h0: History)
    requires moves != [] && Plays(p, start, choose, moves, h)
    ensures
      var n := |moves| - 1;
      Plays(p, start, choose, moves[..n], h0) && Goes(p, h0.s, moves[n], h.s)
  {
    hide Step;
    h0 := Play(p, start, choose, moves[..|moves| - 1]).value;
  }

  ghost predicate Goes(p: Params, s: State, move: Move, s1: State) {
    var o := Step(p, s, move.input, move.choose);
    o.Ok? && o.s == s1
  }

  lemma BeginsInEpoch(p: Params, start: StableCheckpoint, choose: Chooser, h: History)
    requires Plays(p, start, choose, [], h)
    ensures InEpoch(h.s)
  {
    hide SegmentsOf, EpochLen, OrdererEvents;
  }

  lemma {:induction false} UnpassedIsInEpoch(
      p: Params, start: StableCheckpoint, choose: Chooser, moves: seq<Move>, h: History)
    requires Plays(p, start, choose, moves, h) && NeverPasses(p, start, choose, moves)
    ensures InEpoch(h.s)
    decreases |moves|
  {
    hide Plays, PassesEnd, Step, InEpoch;
    if moves == [] {
      BeginsInEpoch(p, start, choose, h);
    } else {
      var n := |moves| - 1;
      var h0 := LastMove(p, start, choose, moves, h);
      assert forall k | 0 <= k <= n :: moves[..n][..k] == moves[..k];
      UnpassedIsInEpoch(p, start, choose, moves[..n], h0);
      StepStaysInEpochIff(p, h0.s, moves[n].input, moves[n].choose);
    }
  }

  /** Over every run, in any environment: delivery stays within the epoch all the time exactly if no move of the run
      takes it past the end. */
  lemma StaysInEpochIff(p: Params, start: StableCheckpoint, choose: Chooser, moves: seq<Move>, h: History)
    requires Plays(p, start, choose, moves, h)
    ensures AlwaysInEpoch(p, start, choose, moves) <==> NeverPasses(p, start, choose, moves)
  {
    hide Plays, PassesEnd, Step, InEpoch, StaysInEpoch;
    if NeverPasses(p, start, choose, moves) {
      forall n, hn | 0 <= n <= |moves| && Plays(p, start, choose, moves[..n], hn) ensures StaysInEpoch(hn.trace) {
        assert forall k | 0 <= k <= n :: moves[..n][..k] == moves[..k];
        UnpassedIsInEpoch(p, start, choose, moves[..n], hn);
        TraceTells(p, start, choose, moves[..n], hn);
      }
    }
    if AlwaysInEpoch(p, start, choose, moves) {
      forall n, hn | 0 <= n < |moves| && Plays(p, start, choose, moves[..n], hn)
        ensures !PassesEnd(hn.s, moves[n].input)
      {
        var h1 := PrefixPlays(p, start, choose, moves, h, n + 1);
        var h0 := LastMove(p, start, choose, moves[..n + 1], h1);
        assert moves[..n + 1][..n] == moves[..n];
        OneHistory(p, start, choose, moves[..n], hn, h0);
        TraceTells(p, start, choose, moves[..n], hn);
        TraceTells(p, start, choose, moves[..n + 1], h1);
        StepStaysInEpochIff(p, hn.s, moves[n].input, moves[n].choose);
      }
    }
  }

  lemma OneHistory(p: Params, start: StableCheckpoint, choose: Chooser, moves: seq<Move>, a: History, b: History)
    requires Plays(p, start, choose, moves, a) && Plays(p, start, choose, moves, b)
    ensures a == b
  {}

  lemma {:induction false} InRangeBefore(
      p: Params, start: StableCheckpoint, choose: Chooser, moves: seq<Move>, n: nat, h: History)
    requires n < |moves| && InRangeRun(p, start, choose, moves) && Plays(p, start, choose, moves[..n], h)
    ensures InRangeRun(p, start, choose, moves[..n]) && InRange(h.s, moves[n].input)
    decreases |moves|
  {
    hide Step, Begin, InRange;
    var init := moves[..|moves| - 1];
    if n < |moves| - 1 {
      assert init[..n] == moves[..n];
      InRangeBefore(p, start, choose, init, n, h);
    }
  }

  /** If every outcome arrives while its sequence number is below the end of the current epoch, no move of the run
      takes delivery past that end. */
  lemma DeliveryStaysInEpoch(p: Params, start: StableCheckpoint, choose: Chooser, moves: seq<Move>, h: History)
    requires Plays(p, start, choose, moves, h) && InRangeRun(p, start, choose, moves)
    ensures NeverPasses(p, start, choose, moves) && StaysInEpoch(h.trace)
  {
    hide Play, InRangeRun, StaysInEpoch;
    forall n, hn | 0 <= n < |moves| && Plays(p, start, choose, moves[..n], hn)
      ensures !PassesEnd(hn.s, moves[n].input)
    {
      InRangeBefore(p, start, choose, moves, n, hn);
      RunStaysBounded(p, start, choose, moves[..n]);
      assert hn.s.newEpochSN !in hn.s.commitLog;
    }
    UnpassedIsInEpoch(p, start, choose, moves, h);
    TraceTells(p, start, choose, moves, h);
  }

  // ---------------------------------------------------------------- past the end

  ghost predicate StaysPast(s: State, o: Outcome) {
    o.Ok? ==> !InEpoch(o.s) && o.s.epoch == s.epoch && o.s.newEpochSN == s.newEpochSN && NoEpochs(o.out)
  }

  lemma ProcessStaysPast(p: Params, s: State, choose: Chooser)
    requires !InEpoch(s)
    ensures StaysPast(s, ProcessCommitted(p, s, choose))
  {
    hide AdvanceEpoch, Readable, CertEvents, Iss.Run, SuspectAll, Without;
    var entries := Iss.Run(s.commitLog, s.nextDeliveredSN);
    var certs := CertEvents(entries, s.nextDeliveredSN);
    CertsCreateNothing(entries, s.nextDeliveredSN);
    assert forall i | 0 <= i < |certs| :: certs[i] in certs;
  }

  /** Past the end of the epoch, nothing but the installation of a checkpoint gets the node out of it. */
  lemma PastTheEndStays(p: Params, s: State, i: Input, choose: Chooser)
    requires !InEpoch(s) && !Installs(s, i)
    ensures StaysPast(s, Step(p, s, i, choose))
  {
    hide ProcessCommitted, AdvanceEpoch, LP.Suspect, SortedKeys.Sorted;
    match i
    case SbDeliver(sn, data, aborted, leader) =>
      var policy := LP.Suspect(s.policy, s.epoch.nr, leader);
      ProcessStaysPast(p, s.(commitLog := s.commitLog[sn := Entry(data, true, leader)]), choose);
      ProcessStaysPast(p, s.(policy := policy, commitLog := s.commitLog[sn := Entry(EMPTY, true, leader)]), choose);
    case CertVerified(valid, sn, data, leader) =>
      var policy := LP.Suspect(s.policy, s.epoch.nr, leader);
      ProcessStaysPast(p, s.(commitLog := s.commitLog[sn := Entry(data, false, leader)]), choose);
      ProcessStaysPast(p, s.(policy := policy, commitLog := s.commitLog[sn := Entry(EMPTY, true, leader)]), choose);
    case SbCheckpoint(common) =>
      if common.Some? {
        ProcessStaysPast(p, s.(lastStable := common.value), choose);
      }
    case _ =>
  }

  lemma NoEpochsConcat(a: seq<Event>, b: seq<Event>, c: seq<Event>)
    requires a <= b && NoEpochs(b[|a|..]) && NoEpochs(c)
    ensures NoEpochs((b + c)[|a|..])
  {
    assert (b + c)[|a|..] == b[|a|..] + c;
  }

  /** A node that has delivered past the end of an epoch never leaves that epoch, unless by a restore. */
  lemma {:induction false} PastTheEndIsStuck(
      p: Params, start: StableCheckpoint, choose: Chooser, moves: seq<Move>, h: History, n: nat, h0: History)
    requires Plays(p, start, choose, moves, h) && n <= |moves| && Plays(p, start, choose, moves[..n], h0)
    requires !StaysInEpoch(h0.trace) && h0.trace <= h.trace && NoRestore(h.trace[|h0.trace|..])
    ensures NoEpochs(h.trace[|h0.trace|..]) && h.s.epoch == h0.s.epoch && !StaysInEpoch(h.trace)
    decreases |moves|
  {
    hide Step, Begin, StaysInEpoch, NoEpochs, InEpoch;
    TraceTells(p, start, choose, moves[..n], h0);
    TraceTells(p, start, choose, moves, h);
    if n < |moves| {
      var init, last := moves[..|moves| - 1], moves[|moves| - 1];
      assert init[..n] == moves[..n];
      var h1 := Play(p, start, choose, init).value;
      var same := PrefixPlays(p, start, choose, init, h1, n);
      PartHasNoRestore(h0.trace, h1.trace, h.trace);
      PastTheEndIsStuck(p, start, choose, init, h1, n, h0);
      if Installs(h1.s, last.input) {
        InstallRestores(p, h1, last);
        assert false;
      }
      TraceTells(p, start, choose, init, h1);
      PastTheEndStays(p, h1.s, last.input, last.choose);
      NoEpochsConcat(h0.trace, h1.trace, Step(p, h1.s, last.input, last.choose).out);
    } else {
      assert moves[..n] == moves;
      NothingHasNoEpochs(h0.trace);
    }
  }

  lemma NothingHasNoEpochs(trace: seq<Event>)
    ensures NoEpochs(trace[|trace|..])
  {}

  // ---------------------------------------------------------------- a run past the end

  /** Every outcome of the run is at a sequence number of a segment created before. */
  ghost predicate OrderersKeep(p: Params, start: StableCheckpoint, choose: Chooser, moves: seq<Move>) {
    forall n, h | 0 <= n < |moves| && Plays(p, start, choose, moves[..n], h) ::
      moves[n].input.SbDeliver? || moves[n].input.CertVerified? ==> Created(h.trace, moves[n].input.sn)
  }

  lemma StartOne(p: Params, s: State, nr: EpochNr, m: Membership)
    requires p.segmentLength == 1 && s.memberships == [m, m] && 0 in m && s.nextDeliveredSN == s.newEpochSN
    ensures
      var o, sn := StartEpoch(p, s, nr, [0]), s.newEpochSN;
      && o.Ok? && o.s.newEpochSN == sn + 1 && o.s.epoch.firstSN == sn && o.s.epoch.nr == nr
      && o.s == s.(epoch := o.s.epoch, newEpochSN := sn + 1, epochs := o.s.epochs)
      && Created(o.out, sn)
  {
    var o, sn := StartEpoch(p, s, nr, [0]), s.newEpochSN;
    assert FreeProposals(sn, 1, 0) == {};
    var segment := Segment(0, m, {sn});
    assert FreeProposals(sn, 1, 1) == {sn};
    assert SegmentsOf([0], m, sn, 1) == [segment];
    assert EpochLen([segment][..0]) == 0;
    assert o.out[3] == NewOrderer(nr, 0, segment);
  }

  /** Keeping to the created segments is not enough: if a checkpoint is installed that starts below the end of the
      epoch it replaces, a late outcome of an old segment lets delivery pass the end of the new epoch. */
  lemma InstallingBelowOvershoots()
    returns (p: Params, start: StableCheckpoint, choose: Chooser, moves: seq<Move>, h: History)
    ensures CountedRun(p, start, moves) && OrderersKeep(p, start, choose, moves) && Plays(p, start, choose, moves, h)
    ensures Base(h.trace) + |Delivered(h.trace)| > EpochStart(h.trace) + EpochSize(h.trace)
  {
    hide StartEpoch;
    var m: Membership := map[0 := NodeIdentity(0, "", 1)];
    var at := (epoch, sn) => StableCheckpoint(
      sn, StateSnapshot([], EpochData(EpochConfig(epoch, sn, 1, [m, m]), map[], Encoded(Simple([0])), m)), map[]);
    var nothing := (sn: nat) => SbDeliver(sn, EMPTY, true, 0);
    var c := at(3, 9);
    p, start, choose := Params(0, 1, 1, 0), at(1, 10), (policy: LeaderPolicy) => [0];
    moves := [Move(CheckpointValidated(true, c), choose), Move(nothing(10), choose), Move(nothing(9), choose)];
    StartOne(p, New(start, Simple([0])), 1, m);
    var h0 := Begin(p, start, choose).value;
    assert Plays(p, start, choose, moves[..0], h0);
    StartOne(p, Installed(h0.s, c, Simple([0])), 3, m);
    var h1 := After(p, h0, moves[0]).value;
    hide Install;
    LateOutcomes(p, h1.s, choose, Entry(EMPTY, true, 0));
    hide Insert, Play, Delivered, Base, EpochStart, EpochSize;
    var h2 := After(p, h1, moves[1]).value;
    h := After(p, h2, moves[2]).value;
    assert moves[..1] == moves[..0] + [moves[0]] && moves[..2] == moves[..1] + [moves[1]];
    assert moves == moves[..2] + [moves[2]];
    OneMoreMove(p, start, choose, moves[..0], h0, moves[0], h1);
    OneMoreMove(p, start, choose, moves[..1], h1, moves[1], h2);
    OneMoreMove(p, start, choose, moves[..2], h2, moves[2], h);
    GapFreeDelivery(p, start, choose, moves, h);
  }

  lemma OneMoreMove(
      p: Params, start: StableCheckpoint, choose: Chooser, moves: seq<Move>, h: History, last: Move, h1: History)
    requires Plays(p, start, choose, moves, h) && After(p, h, last) == Some(h1)
    ensures Plays(p, start, choose, moves + [last], h1)
  {
    hide Step, Begin;
    assert (moves + [last])[..|moves|] == moves;
  }

  /** Two late outcomes, the one at the end of the epoch first. */
  lemma LateOutcomes(p: Params, s: State, choose: Chooser, e: Entry)
    requires s.commitLog == map[] && s.nextNewMembership.None? && HasEpochCheckpoint(s)
    requires s.nextDeliveredSN == 9 && s.newEpochSN == 10 && e.aborted
    ensures
      var o1 := Insert(p, s, 10, e, choose);
      && o1.Ok?
      && var o2 := Insert(p, o1.s, 9, e, choose);
         o2.Ok? && o2.s.nextDeliveredSN > o2.s.newEpochSN
  {
    hide CertEvents, SuspectAll;
    var s1 := s.(commitLog := map[10 := e]);
    assert s.commitLog[10 := e] == map[10 := e];
    assert Iss.Run(s1.commitLog, 9) == [];
    assert Drained(s1).commitLog == s1.commitLog;
    var s2 := Drained(s1).(commitLog := s1.commitLog[9 := e]);
    RunStopsAt(s2.commitLog, 9, 10);
    assert Readable(Iss.Run(s2.commitLog, 9)) by {
      OnlyFromLog(s2.commitLog, 9, e);
    }
  }

  lemma {:induction false} OnlyFromLog(log: map<SeqNr, Entry>, next: SeqNr, e: Entry)
    requires forall sn | sn in log :: log[sn] == e
    ensures forall x | x in Iss.Run(log, next) :: x == e
    decreases |log|
  {
    if next in log {
      OnlyFromLog(log - {next}, next + 1, e);
    }
  }
}
