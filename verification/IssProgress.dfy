/** What ISS may not leave undone (pkg/iss/iss.go): an epoch whose three conditions are met has ended, an outcome that
    can be delivered has been, and an agreed checkpoint has been announced. */
module IssProgress {
  import opened Quorums
  import opened Types
  import opened Segments
  import opened Iss
  import opened IssRuns
  import opened IssTheorems
  import opened IssOrder
  import LP = LeaderPolicies
  import IE = IssEpochEnd
  import SortedKeys

  // ---------------------------------------------------------------- nothing left to do

  /** With the epoch's checkpoint there is nothing to deliver, and the epoch is not over. */
  ghost predicate Idle(s: State) {
    HasEpochCheckpoint(s) ==>
      && s.nextDeliveredSN !in s.commitLog
      && !(s.nextDeliveredSN == s.newEpochSN && s.nextNewMembership.Some?)
  }

  ghost predicate IdleAfter(o: Outcome) {
    o.Ok? ==> Idle(o.s)
  }

  lemma {:induction false} RunEnds(log: map<SeqNr, Entry>, next: SeqNr)
    ensures next + |Iss.Run(log, next)| !in log
    decreases |log|
  {
    if next in log {
      RunEnds(log - {next}, next + 1);
    }
  }

  lemma AdvanceIsIdle(p: Params, s: State, choose: Chooser)
    requires s.nextNewMembership.Some? && s.nextDeliveredSN !in s.commitLog
    ensures IdleAfter(AdvanceEpoch(p, s, choose))
  {
    hide SegmentsOf, EpochLen, OrdererEvents, LP.Reconfigure;
  }

  lemma ProcessIsIdle(p: Params, s: State, choose: Chooser)
    ensures IdleAfter(ProcessCommitted(p, s, choose))
  {
    hide AdvanceEpoch, CertEvents, Readable, Iss.Run, SuspectAll;
    RunEnds(s.commitLog, s.nextDeliveredSN);
    if EpochFinished(Drained(s)) {
      AdvanceIsIdle(p, Drained(s), choose);
    }
  }

  lemma StartIsIdle(p: Params, s: State, nr: EpochNr, leaders: seq<NodeId>)
    requires s.commitLog == map[] && s.nextNewMembership.None?
    ensures IdleAfter(StartEpoch(p, s, nr, leaders))
  {
    hide SegmentsOf, EpochLen, OrdererEvents;
  }

  lemma StepIsIdle(p: Params, s: State, i: Input, choose: Chooser)
    requires Idle(s)
    ensures IdleAfter(Step(p, s, i, choose))
  {
    hide ProcessCommitted, AdvanceEpoch, StartEpoch, LP.Suspect, SortedKeys.Sorted;
    match i
    case SbDeliver(sn, data, aborted, leader) =>
      var policy := LP.Suspect(s.policy, s.epoch.nr, leader);
      ProcessIsIdle(p, s.(commitLog := s.commitLog[sn := Entry(data, true, leader)]), choose);
      ProcessIsIdle(p, s.(policy := policy, commitLog := s.commitLog[sn := Entry(EMPTY, true, leader)]), choose);
    case CertVerified(valid, sn, data, leader) =>
      var policy := LP.Suspect(s.policy, s.epoch.nr, leader);
      ProcessIsIdle(p, s.(commitLog := s.commitLog[sn := Entry(data, false, leader)]), choose);
      ProcessIsIdle(p, s.(policy := policy, commitLog := s.commitLog[sn := Entry(EMPTY, true, leader)]), choose);
    case SbCheckpoint(common) =>
      if common.Some? {
        ProcessIsIdle(p, s.(lastStable := common.value), choose);
      }
    case NewConfig(epochNr, m) =>
      if EpochFinished(s.(nextNewMembership := Some(m))) {
        AdvanceIsIdle(p, s.(nextNewMembership := Some(m)), choose);
      }
    case CheckpointValidated(ok, chkp) =>
      if Installs(s, i) {
        var policy := chkp.snapshot.epochData.leaderPolicy.policy;
        StartIsIdle(p, Installed(s, chkp, policy), chkp.Epoch(), choose(policy));
      }
    case _ =>
  }

  /** In every run, after every input, nothing is left to do. */
  lemma {:induction false} RunIsIdle(p: Params, start: StableCheckpoint, choose: Chooser, moves: seq<Move>, h: History)
    requires Plays(p, start, choose, moves, h)
    ensures Idle(h.s)
    decreases |moves|
  {
    hide Step, StartEpoch, Idle;
    if moves == [] {
      var policy := start.snapshot.epochData.leaderPolicy.policy;
      StartIsIdle(p, New(start, policy), start.Epoch(), choose(policy));
    } else {
      var init, last := moves[..|moves| - 1], moves[|moves| - 1];
      var h0 := Play(p, start, choose, init).value;
      RunIsIdle(p, start, choose, init, h0);
      StepIsIdle(p, h0.s, last.input, last.choose);
    }
  }

  // ---------------------------------------------------------------- the last announced checkpoint

  /** The sequence number of the checkpoint that the application was last told of. */
  function LastAnnounced(trace: seq<Event>): SeqNr {
    if trace == [] then 0
    else
      match trace[|trace| - 1]
      case RestoreState(c) => c.sn
      case StableChkp(c) => c.sn
      case _ => LastAnnounced(trace[..|trace| - 1])
  }

  lemma {:induction false} ViewReadsAnnounced(trace: seq<Event>)
    requires !SeeAll(Start, trace).Violation?
    ensures
      var v := SeeAll(Start, trace);
      (v.Restored? ==> v.sn == LastAnnounced(trace)) && (v.Running? ==> v.chkp == LastAnnounced(trace))
    decreases |trace|
  {
    if trace != [] {
      ViewReadsAnnounced(trace[..|trace| - 1]);
    }
  }

  lemma StateReadsAnnounced(p: Params, start: StableCheckpoint, choose: Chooser, moves: seq<Move>, h: History)
    requires Plays(p, start, choose, moves, h)
    ensures LastAnnounced(h.trace) == h.s.lastStable.sn && CurrentEpoch(h.trace) == h.s.epoch.nr
  {
    hide Play;
    RunSeen(p, start, choose, moves);
    ViewReadsAnnounced(h.trace);
    ViewReadsTrace(h.trace);
  }

  // ---------------------------------------------------------------- epochs end

  /** Everything the orderers of the current epoch were given has been delivered. */
  ghost predicate AllDelivered(trace: seq<Event>) {
    Base(trace) + |Delivered(trace)| == EpochStart(trace) + EpochSize(trace)
  }

  /** The checkpoint at the first sequence number of the current epoch was the last one announced. */
  ghost predicate CheckpointInPlace(trace: seq<Event>) {
    LastAnnounced(trace) == EpochStart(trace)
  }

  /** A membership that is waiting goes on waiting until an epoch starts. */
  ghost predicate Waits(o: Outcome) {
    o.Ok? && NoEpochs(o.out) ==> o.s.nextNewMembership.Some?
  }

  lemma AdvanceStarts(p: Params, s: State, choose: Chooser)
    requires s.nextNewMembership.Some? && AdvanceEpoch(p, s, choose).Ok?
    ensures
      var o := AdvanceEpoch(p, s, choose);
      && OneEpoch(o.out, 0) && o.out[0] == NewEpoch(s.epoch.nr + 1)
      && o.s.nextNewMembership.None? && o.s.nextDeliveredSN == s.nextDeliveredSN && o.s.commitLog == s.commitLog
  {
    AdvanceGiven(p, s, choose);
    hide SegmentsOf, EpochLen, OrdererEvents, LP.Reconfigure;
  }

  lemma ProcessWaits(p: Params, s: State, choose: Chooser)
    requires s.nextNewMembership.Some?
    ensures Waits(ProcessCommitted(p, s, choose))
  {
    hide AdvanceEpoch, CertEvents, Readable, Iss.Run, SuspectAll, Without;
    if EpochFinished(Drained(s)) && AdvanceEpoch(p, Drained(s), choose).Ok? {
      AdvanceStarts(p, Drained(s), choose);
      var certs, out := CertEvents(Iss.Run(s.commitLog, s.nextDeliveredSN), s.nextDeliveredSN),
                        AdvanceEpoch(p, Drained(s), choose).out;
      assert (certs + out)[|certs|] == out[0];
    }
  }

  lemma CommonWaits(p: Params, s: State, common: Option<StableCheckpoint>, choose: Chooser)
    requires s.nextNewMembership.Some?
    ensures Waits(OnCommonCheckpoint(p, s, common, choose))
  {
    hide ProcessCommitted;
    if common.Some? && ProcessCommitted(p, s.(lastStable := common.value), choose).Ok? {
      ProcessWaits(p, s.(lastStable := common.value), choose);
      var out := ProcessCommitted(p, s.(lastStable := common.value), choose).out;
      var all := [StableChkp(common.value)] + out + Prune(p, common.value.Epoch());
      assert forall k | 0 <= k < |out| :: all[k + 1] == out[k];
    }
  }

  lemma StepWaits(p: Params, s: State, i: Input, choose: Chooser)
    requires Given(s, i)
    ensures Waits(Step(p, s, i, choose))
  {
    hide ProcessCommitted, AdvanceEpoch, OnCommonCheckpoint, StartEpoch, LP.Suspect, SortedKeys.Sorted, NoEpochs;
    match i
    case SbDeliver(sn, data, aborted, leader) =>
      var policy := LP.Suspect(s.policy, s.epoch.nr, leader);
      ProcessWaits(p, s.(commitLog := s.commitLog[sn := Entry(data, true, leader)]), choose);
      ProcessWaits(p, s.(policy := policy, commitLog := s.commitLog[sn := Entry(EMPTY, true, leader)]), choose);
    case CertVerified(valid, sn, data, leader) =>
      var policy := LP.Suspect(s.policy, s.epoch.nr, leader);
      ProcessWaits(p, s.(commitLog := s.commitLog[sn := Entry(data, false, leader)]), choose);
      ProcessWaits(p, s.(policy := policy, commitLog := s.commitLog[sn := Entry(EMPTY, true, leader)]), choose);
    case SbCheckpoint(common) => CommonWaits(p, s, common, choose);
    case NewConfig(epochNr, m) =>
      var s1 := s.(nextNewMembership := Some(m));
      if EpochFinished(s1) && AdvanceEpoch(p, s1, choose).Ok? {
        AdvanceStarts(p, s1, choose);
        StartsSome(AdvanceEpoch(p, s1, choose).out);
      }
    case CheckpointValidated(ok, chkp) =>
      if Installs(s, i) && Step(p, s, i, choose).Ok? {
        InstallStarts(p, s, i, choose);
        InstalledStartsSome(p, s, i, choose);
      }
    case _ =>
  }

  lemma StartsSome(events: seq<Event>)
    ensures (exists k | 0 <= k < |events| :: events[k].NewEpoch?) ==> !NoEpochs(events)
  {}

  lemma InstalledStartsSome(p: Params, s: State, i: Input, choose: Chooser)
    requires Installs(s, i) && Step(p, s, i, choose).Ok?
    ensures !NoEpochs(Step(p, s, i, choose).out)
  {
    hide SegmentsOf, EpochLen, OrdererEvents, PruneAll;
    assert Step(p, s, i, choose).out[1] == NewEpoch(i.chkp.Epoch());
  }

  lemma PartHasNoEpochs(a: seq<Event>, b: seq<Event>, c: seq<Event>)
    requires a <= b <= c && NoEpochs(c[|a|..])
    ensures NoEpochs(b[|a|..]) && NoEpochs(c[|b|..])
  {
    forall i | 0 <= i < |b| - |a| ensures !b[|a|..][i].NewEpoch? {
      assert c[|a|..][i] == b[|a|..][i];
    }
    forall i | 0 <= i < |c| - |b| ensures !c[|b|..][i].NewEpoch? {
      assert c[|a|..][i + |b| - |a|] == c[|b|..][i];
    }
  }

  /** The move leads from h to h1. */
  ghost predicate Leads(p: Params, h: History, move: Move, h1: History) {
    var o := Step(p, h.s, move.input, move.choose);
    o.Ok? && o.s == h1.s && h1.trace == h.trace + o.out && h1.trace[|h.trace|..] == o.out
  }

  /** The last move of a run that goes on from the history hm of its first m moves. */
  lemma LastStep(
      p: Params, start: StableCheckpoint, choose: Chooser, moves: seq<Move>, h: History, m: nat, hm: History)
    returns (h1: History)
    requires m < |moves| && Plays(p, start, choose, moves, h) && Plays(p, start, choose, moves[..m], hm)
    ensures
      var n := |moves| - 1;
      && Plays(p, start, choose, moves[..n], h1) && hm.trace <= h1.trace <= h.trace && (m == n ==> h1 == hm)
      && Leads(p, h1, moves[n], h)
  {
    hide Step, Begin;
    var n := |moves| - 1;
    h1 := Play(p, start, choose, moves[..n]).value;
    var same := PrefixPlays(p, start, choose, moves[..n], h1, m);
    assert moves[..n][..m] == moves[..m];
  }

  /** A membership accepted since the last epoch started is still waiting. */
  lemma {:induction false} GivenWaits(
      p: Params, start: StableCheckpoint, choose: Chooser, moves: seq<Move>, h: History, m: nat, hm: History)
    requires Plays(p, start, choose, moves, h) && GivenAt(p, start, choose, moves, h.trace, m, hm)
    ensures h.s.nextNewMembership.Some?
    decreases |moves|
  {
    hide Step, Play, NoEpochs;
    var n := |moves| - 1;
    var h1 := LastStep(p, start, choose, moves, h, m, hm);
    PartHasNoEpochs(hm.trace, h1.trace, h.trace);
    if m < n {
      assert moves[..n][..m] == moves[..m];
      GivenWaits(p, start, choose, moves[..n], h1, m, hm);
    }
    StepWaits(p, h1.s, moves[n].input, moves[n].choose);
  }

  /** In every run, in any environment: it never happens that everything the orderers of an epoch were given has been
      delivered, the checkpoint at the epoch's first sequence number was the last one announced, a membership has been
      accepted (by move m) since the epoch started, and yet the next epoch has not started. */
  lemma EpochsDoEnd(
      p: Params, start: StableCheckpoint, choose: Chooser, moves: seq<Move>, h: History, m: nat, hm: History)
    requires Plays(p, start, choose, moves, h) && GivenAt(p, start, choose, moves, h.trace, m, hm)
    ensures !(AllDelivered(h.trace) && CheckpointInPlace(h.trace))
  {
    hide Plays, GivenAt, Base, Delivered, EpochStart, EpochSize, LastAnnounced, CurrentEpoch;
    GapFreeDelivery(p, start, choose, moves, h);
    StateReadsAnnounced(p, start, choose, moves, h);
    GivenWaits(p, start, choose, moves, h, m, hm);
    RunIsIdle(p, start, choose, moves, h);
  }

  // ---------------------------------------------------------------- the step that ends an epoch

  /** The sequence number has an outcome, counting the one that the input brings. */
  ghost predicate Has(s: State, i: Input, sn: SeqNr) {
    sn in s.commitLog || (OutcomeOf(i).Some? && OutcomeOf(i).value.0 == sn)
  }

  function StableAfter(s: State, i: Input): SeqNr {
    if i.SbCheckpoint? && i.common.Some? && i.common.value.sn > s.lastStable.sn then i.common.value.sn
    else s.lastStable.sn
  }

  /** Together with the input, the epoch's checkpoint is there, the next membership, and an outcome for every number up
      to the end of the epoch, but none for the first one beyond. */
  ghost predicate EndsEpoch(s: State, i: Input) {
    && StableAfter(s, i) == s.epoch.firstSN && Given(s, i) && s.nextDeliveredSN <= s.newEpochSN
    && (forall sn | s.nextDeliveredSN <= sn < s.newEpochSN :: Has(s, i, sn)) && !Has(s, i, s.newEpochSN)
  }

  ghost predicate NextAt(out: seq<Event>, k: nat, nr: EpochNr) {
    OneEpoch(out, k) && out[k] == NewEpoch(nr + 1)
  }

  ghost predicate StartsNext(nr: EpochNr, out: seq<Event>) {
    exists k: nat :: NextAt(out, k, nr)
  }

  /** The next epoch starts exactly if the condition holds, and otherwise none does. */
  ghost predicate StartsIff(nr: EpochNr, o: Outcome, condition: bool) {
    o.Ok? ==> if condition then StartsNext(nr, o.out) else NoEpochs(o.out)
  }

  ghost predicate Filled(s: State) {
    && s.nextDeliveredSN <= s.newEpochSN && s.newEpochSN !in s.commitLog
    && forall sn | s.nextDeliveredSN <= sn < s.newEpochSN :: sn in s.commitLog
  }

  lemma FilledIff(s: State)
    ensures s.nextDeliveredSN + |Iss.Run(s.commitLog, s.nextDeliveredSN)| == s.newEpochSN <==> Filled(s)
  {
    hide Iss.Run;
    var end := s.nextDeliveredSN + |Iss.Run(s.commitLog, s.nextDeliveredSN)|;
    RunEnds(s.commitLog, s.nextDeliveredSN);
    if Filled(s) {
      IE.RunStopsAt(s.commitLog, s.nextDeliveredSN, s.newEpochSN);
      if s.nextDeliveredSN < s.newEpochSN {
        IE.RunStopsAt(s.commitLog, s.nextDeliveredSN, s.newEpochSN - 1);
      }
    } else if end == s.newEpochSN {
      var sn :| s.nextDeliveredSN <= sn < s.newEpochSN && sn !in s.commitLog;
      IE.RunStopsAt(s.commitLog, s.nextDeliveredSN, sn);
    }
  }

  lemma ProcessStartsIff(p: Params, s: State, choose: Chooser)
    ensures
      StartsIff(s.epoch.nr, ProcessCommitted(p, s, choose),
                HasEpochCheckpoint(s) && s.nextNewMembership.Some? && Filled(s))
  {
    hide AdvanceEpoch, CertEvents, Readable, Iss.Run, SuspectAll, Without, OneEpoch, Filled;
    FilledIff(s);
    var certs := CertEvents(Iss.Run(s.commitLog, s.nextDeliveredSN), s.nextDeliveredSN);
    CertsCreateNothing(Iss.Run(s.commitLog, s.nextDeliveredSN), s.nextDeliveredSN);
    assert forall i | 0 <= i < |certs| :: certs[i] in certs;
    if EpochFinished(Drained(s)) && AdvanceEpoch(p, Drained(s), choose).Ok? {
      AdvanceStarts(p, Drained(s), choose);
      var out := AdvanceEpoch(p, Drained(s), choose).out;
      OneEpochWithin(certs, out, [], 0);
      assert certs + out + [] == certs + out;
      assert NextAt(certs + out, |certs|, s.epoch.nr);
    }
  }

  lemma CommonStartsIff(p: Params, s: State, common: Option<StableCheckpoint>, choose: Chooser)
    requires Idle(s)
    ensures StartsIff(s.epoch.nr, OnCommonCheckpoint(p, s, common, choose), EndsEpoch(s, SbCheckpoint(common)))
  {
    hide ProcessCommitted, OneEpoch;
    if common.Some? && common.value.sn > s.lastStable.sn {
      var c, s1 := common.value, s.(lastStable := common.value);
      ProcessStartsIff(p, s1, choose);
      assert forall sn :: Has(s, SbCheckpoint(common), sn) <==> sn in s.commitLog;
      assert EndsEpoch(s, SbCheckpoint(common)) <==>
        HasEpochCheckpoint(s1) && s1.nextNewMembership.Some? && Filled(s1);
      var o := ProcessCommitted(p, s1, choose);
      if o.Ok? && EndsEpoch(s, SbCheckpoint(common)) {
        var k: nat :| NextAt(o.out, k, s.epoch.nr);
        OneEpochWithin([StableChkp(c)], o.out, Prune(p, c.Epoch()), k);
        var all := [StableChkp(c)] + o.out + Prune(p, c.Epoch());
        assert k < |o.out| && all[1 + k] == o.out[k] by {
          InRangeAt(o.out, k);
        }
        assert NextAt(all, 1 + k, s.epoch.nr);
      }
    } else {
      NotYet(s, SbCheckpoint(common));
    }
  }

  lemma InRangeAt(events: seq<Event>, k: nat)
    requires OneEpoch(events, k)
    ensures k < |events|
  {}

  /** Without anything new, an idle node has no reason to start an epoch. */
  lemma NotYet(s: State, i: Input)
    requires Idle(s) && StableAfter(s, i) == s.lastStable.sn && OutcomeOf(i).None? && !AcceptsMembership(s, i)
    ensures !EndsEpoch(s, i)
  {
    if s.nextDeliveredSN < s.newEpochSN {
      assert EndsEpoch(s, i) ==> Has(s, i, s.nextDeliveredSN);
    }
  }

  lemma OutcomeStartsIff(p: Params, s: State, i: Input, s1: State, choose: Chooser)
    requires OutcomeOf(i).Some? && s1.commitLog.Keys == s.commitLog.Keys + {OutcomeOf(i).value.0}
    requires s1 == s.(policy := s1.policy, commitLog := s1.commitLog)
    ensures StartsIff(s.epoch.nr, ProcessCommitted(p, s1, choose), EndsEpoch(s, i))
  {
    hide ProcessCommitted, OneEpoch;
    ProcessStartsIff(p, s1, choose);
    assert forall sn :: sn in s1.commitLog <==> Has(s, i, sn);
    assert EndsEpoch(s, i) <==> HasEpochCheckpoint(s1) && s1.nextNewMembership.Some? && Filled(s1);
  }

  lemma ConfigStartsIff(p: Params, s: State, epochNr: EpochNr, m: Membership, choose: Chooser)
    requires Idle(s)
    ensures StartsIff(s.epoch.nr, OnNewConfig(p, s, epochNr, m, choose), EndsEpoch(s, NewConfig(epochNr, m)))
  {
    hide AdvanceEpoch, OneEpoch;
    var i, s1 := NewConfig(epochNr, m), s.(nextNewMembership := Some(m));
    if AcceptsMembership(s, i) {
      if EpochFinished(s1) {
        if AdvanceEpoch(p, s1, choose).Ok? {
          AdvanceStarts(p, s1, choose);
          assert NextAt(AdvanceEpoch(p, s1, choose).out, 0, s.epoch.nr);
        }
      } else if s.nextDeliveredSN < s.newEpochSN {
        assert EndsEpoch(s, i) ==> Has(s, i, s.nextDeliveredSN);
      }
    } else {
      NotYet(s, i);
    }
  }

  /** In every state that a run can reach: an input that restores nothing starts the next epoch exactly if it brings the
      last of the three conditions for it, and otherwise no epoch. */
  lemma StepEndsEpochIff(p: Params, s: State, i: Input, choose: Chooser)
    requires Idle(s) && !Installs(s, i)
    ensures StartsIff(s.epoch.nr, Step(p, s, i, choose), EndsEpoch(s, i))
  {
    hide ProcessCommitted, AdvanceEpoch, OnCommonCheckpoint, OnNewConfig, LP.Suspect, SortedKeys.Sorted, StartsNext;
    match i
    case SbDeliver(sn, data, aborted, leader) =>
      var policy := LP.Suspect(s.policy, s.epoch.nr, leader);
      if aborted {
        OutcomeStartsIff(p, s, i, s.(commitLog := s.commitLog[sn := Entry(data, true, leader)]), choose);
      } else if data.Unreadable? {
        var log := s.commitLog[sn := Entry(EMPTY, true, leader)];
        OutcomeStartsIff(p, s, i, s.(policy := policy, commitLog := log), choose);
      } else {
        NotYet(s, i);
      }
    case CertVerified(valid, sn, data, leader) =>
      var policy := LP.Suspect(s.policy, s.epoch.nr, leader);
      if valid {
        OutcomeStartsIff(p, s, i, s.(commitLog := s.commitLog[sn := Entry(data, false, leader)]), choose);
      } else {
        var log := s.commitLog[sn := Entry(EMPTY, true, leader)];
        OutcomeStartsIff(p, s, i, s.(policy := policy, commitLog := log), choose);
      }
    case SbCheckpoint(common) => CommonStartsIff(p, s, common, choose);
    case NewConfig(epochNr, m) => ConfigStartsIff(p, s, epochNr, m, choose);
    case _ => NotYet(s, i);
  }

  /** In every run: a move that restores nothing starts the next epoch exactly if it brings the last condition. */
  lemma LastConditionEndsEpoch(
      p: Params, start: StableCheckpoint, choose: Chooser, moves: seq<Move>, last: Move, h: History, h1: History)
    requires Plays(p, start, choose, moves, h) && Plays(p, start, choose, moves + [last], h1)
    requires !Installs(h.s, last.input)
    ensures h.trace <= h1.trace
    ensures
      var out := h1.trace[|h.trace|..];
      if EndsEpoch(h.s, last.input) then StartsNext(CurrentEpoch(h.trace), out) else NoEpochs(out)
  {
    hide Step, Begin, EndsEpoch, StartsNext, NoEpochs, CurrentEpoch, LastAnnounced, Idle;
    assert (moves + [last])[..|moves|] == moves;
    RunIsIdle(p, start, choose, moves, h);
    StateReadsAnnounced(p, start, choose, moves, h);
    StepEndsEpochIff(p, h.s, last.input, last.choose);
  }

  // ---------------------------------------------------------------- outcomes are delivered

  /** Move m of the run brought an outcome for the sequence number, and nothing was restored since. */
  ghost predicate ReceivedAt(
      p: Params, start: StableCheckpoint, choose: Chooser, moves: seq<Move>, trace: seq<Event>, m: nat, hm: History,
      sn: SeqNr)
  {
    && m < |moves| && Plays(p, start, choose, moves[..m], hm)
    && OutcomeOf(moves[m].input).Some? && OutcomeOf(moves[m].input).value.0 == sn
    && hm.trace <= trace && NoRestore(trace[|hm.trace|..])
  }

  /** The outcome is in the log, or delivered. */
  ghost predicate Kept(s: State, sn: SeqNr) {
    sn in s.commitLog || sn < s.nextDeliveredSN
  }

  lemma ProcessKeeps(p: Params, s: State, choose: Chooser, sn: SeqNr)
    requires Kept(s, sn) && ProcessCommitted(p, s, choose).Ok?
    ensures Kept(ProcessCommitted(p, s, choose).s, sn)
  {
    hide AdvanceEpoch, CertEvents, Readable, Iss.Run, SuspectAll;
    if EpochFinished(Drained(s)) {
      AdvanceStarts(p, Drained(s), choose);
    }
  }

  lemma StepKeepsOutcome(p: Params, s: State, i: Input, choose: Chooser, sn: SeqNr)
    requires Step(p, s, i, choose).Ok? && !Installs(s, i)
    requires Kept(s, sn) || (OutcomeOf(i).Some? && OutcomeOf(i).value.0 == sn)
    ensures Kept(Step(p, s, i, choose).s, sn)
  {
    hide ProcessCommitted, AdvanceEpoch, LP.Suspect, SortedKeys.Sorted;
    match i
    case SbDeliver(k, data, aborted, leader) =>
      var policy := LP.Suspect(s.policy, s.epoch.nr, leader);
      if aborted {
        ProcessKeeps(p, s.(commitLog := s.commitLog[k := Entry(data, true, leader)]), choose, sn);
      } else if data.Unreadable? {
        ProcessKeeps(p, s.(policy := policy, commitLog := s.commitLog[k := Entry(EMPTY, true, leader)]), choose, sn);
      }
    case CertVerified(valid, k, data, leader) =>
      var policy := LP.Suspect(s.policy, s.epoch.nr, leader);
      if valid {
        ProcessKeeps(p, s.(commitLog := s.commitLog[k := Entry(data, false, leader)]), choose, sn);
      } else {
        ProcessKeeps(p, s.(policy := policy, commitLog := s.commitLog[k := Entry(EMPTY, true, leader)]), choose, sn);
      }
    case SbCheckpoint(common) =>
      if common.value.sn > s.lastStable.sn {
        ProcessKeeps(p, s.(lastStable := common.value), choose, sn);
      }
    case NewConfig(epochNr, membership) =>
      var s1 := s.(nextNewMembership := Some(membership));
      if EpochFinished(s1) && AcceptsMembership(s, i) {
        AdvanceStarts(p, s1, choose);
      }
    case _ =>
  }

  lemma {:induction false} ReceivedIsKept(
      p: Params, start: StableCheckpoint, choose: Chooser, moves: seq<Move>, h: History, m: nat, hm: History,
      sn: SeqNr)
    requires Plays(p, start, choose, moves, h) && ReceivedAt(p, start, choose, moves, h.trace, m, hm, sn)
    ensures Kept(h.s, sn)
    decreases |moves|
  {
    hide Step, Play, NoRestore;
    var n := |moves| - 1;
    var h1 := LastStep(p, start, choose, moves, h, m, hm);
    PartHasNoRestore(hm.trace, h1.trace, h.trace);
    if m < n {
      assert moves[..n][..m] == moves[..m];
      ReceivedIsKept(p, start, choose, moves[..n], h1, m, hm, sn);
    }
    if Installs(h1.s, moves[n].input) {
      InstallRestores(p, h1, moves[n]);
      assert false;
    }
    StepKeepsOutcome(p, h1.s, moves[n].input, moves[n].choose, sn);
  }

  /** In every run: with the checkpoint of the current epoch in place, the next number to be delivered is one for which
      no outcome has been received since the last restore. */
  lemma OutcomesAreDelivered(
      p: Params, start: StableCheckpoint, choose: Chooser, moves: seq<Move>, h: History, m: nat, hm: History,
      sn: SeqNr)
    requires Plays(p, start, choose, moves, h) && ReceivedAt(p, start, choose, moves, h.trace, m, hm, sn)
    requires CheckpointInPlace(h.trace)
    ensures sn != Base(h.trace) + |Delivered(h.trace)|
  {
    hide Plays, ReceivedAt, Base, Delivered, EpochStart, EpochSize, LastAnnounced, CurrentEpoch;
    GapFreeDelivery(p, start, choose, moves, h);
    StateReadsAnnounced(p, start, choose, moves, h);
    ReceivedIsKept(p, start, choose, moves, h, m, hm, sn);
    RunIsIdle(p, start, choose, moves, h);
  }

  ghost predicate Received(
      p: Params, start: StableCheckpoint, choose: Chooser, moves: seq<Move>, trace: seq<Event>, sn: SeqNr)
  {
    exists m, hm :: ReceivedAt(p, start, choose, moves, trace, m, hm, sn)
  }

  /** So everything received without a gap has been delivered. */
  lemma GapFreeOutcomesAreDelivered(
      p: Params, start: StableCheckpoint, choose: Chooser, moves: seq<Move>, h: History, to: SeqNr)
    requires Plays(p, start, choose, moves, h) && CheckpointInPlace(h.trace)
    requires forall sn | Base(h.trace) <= sn < to :: Received(p, start, choose, moves, h.trace, sn)
    ensures to <= Base(h.trace) + |Delivered(h.trace)|
  {
    hide Plays, ReceivedAt, Base, Delivered, EpochStart, EpochSize, LastAnnounced;
    var next := Base(h.trace) + |Delivered(h.trace)|;
    if next < to {
      assert Received(p, start, choose, moves, h.trace, next);
      var m, hm :| ReceivedAt(p, start, choose, moves, h.trace, m, hm, next);
      OutcomesAreDelivered(p, start, choose, moves, h, m, hm, next);
    }
  }

  // ---------------------------------------------------------------- checkpoints are announced

  /** Move m of the run brought the checkpoint agreed on, and nothing was restored since. */
  ghost predicate AgreedAt(
      p: Params, start: StableCheckpoint, choose: Chooser, moves: seq<Move>, trace: seq<Event>, m: nat, hm: History,
      c: StableCheckpoint)
  {
    && m < |moves| && Plays(p, start, choose, moves[..m], hm) && moves[m].input == SbCheckpoint(Some(c))
    && hm.trace <= trace && NoRestore(trace[|hm.trace|..])
  }

  lemma AdvanceKeepsStable(p: Params, s: State, choose: Chooser)
    requires s.nextNewMembership.Some? && AdvanceEpoch(p, s, choose).Ok?
    ensures AdvanceEpoch(p, s, choose).s.lastStable == s.lastStable
    ensures forall e | e in AdvanceEpoch(p, s, choose).out :: !e.StableChkp?
  {
    hide SegmentsOf, EpochLen, LP.Reconfigure;
  }

  lemma ProcessKeepsStable(p: Params, s: State, choose: Chooser)
    requires ProcessCommitted(p, s, choose).Ok?
    ensures ProcessCommitted(p, s, choose).s.lastStable == s.lastStable
    ensures forall e | e in ProcessCommitted(p, s, choose).out :: !e.StableChkp?
  {
    hide AdvanceEpoch, CertEvents, Readable, Iss.Run, SuspectAll, Without;
    CertsCreateNothing(Iss.Run(s.commitLog, s.nextDeliveredSN), s.nextDeliveredSN);
    if EpochFinished(Drained(s)) {
      AdvanceKeepsStable(p, Drained(s), choose);
    }
  }

  /** An agreed checkpoint that is newer than the last one is announced, and nothing else is. */
  lemma StepAnnounces(p: Params, s: State, i: Input, choose: Chooser)
    requires Step(p, s, i, choose).Ok? && !Installs(s, i)
    ensures
      var o := Step(p, s, i, choose);
      && o.s.lastStable.sn == StableAfter(s, i)
      && forall e | e in o.out && e.StableChkp? :: i == SbCheckpoint(Some(e.chkp)) && e.chkp.sn > s.lastStable.sn
  {
    hide ProcessCommitted, AdvanceEpoch, LP.Suspect, SortedKeys.Sorted;
    match i
    case SbDeliver(sn, data, aborted, leader) =>
      var policy := LP.Suspect(s.policy, s.epoch.nr, leader);
      if aborted {
        ProcessKeepsStable(p, s.(commitLog := s.commitLog[sn := Entry(data, true, leader)]), choose);
      } else if data.Unreadable? {
        ProcessKeepsStable(p, s.(policy := policy, commitLog := s.commitLog[sn := Entry(EMPTY, true, leader)]), choose);
      }
    case CertVerified(valid, sn, data, leader) =>
      var policy := LP.Suspect(s.policy, s.epoch.nr, leader);
      if valid {
        ProcessKeepsStable(p, s.(commitLog := s.commitLog[sn := Entry(data, false, leader)]), choose);
      } else {
        ProcessKeepsStable(p, s.(policy := policy, commitLog := s.commitLog[sn := Entry(EMPTY, true, leader)]), choose);
      }
    case SbCheckpoint(common) =>
      if common.value.sn > s.lastStable.sn {
        ProcessKeepsStable(p, s.(lastStable := common.value), choose);
      }
    case NewConfig(epochNr, m) =>
      var s1 := s.(nextNewMembership := Some(m));
      if EpochFinished(s1) && AcceptsMembership(s, i) {
        AdvanceKeepsStable(p, s1, choose);
      }
    case _ =>
  }

  /** In every run: the last announced checkpoint is at least as new as every one agreed on since the last restore. */
  lemma {:induction false} AgreedAreAnnounced(
      p: Params, start: StableCheckpoint, choose: Chooser, moves: seq<Move>, h: History, m: nat, hm: History,
      c: StableCheckpoint)
    requires Plays(p, start, choose, moves, h) && AgreedAt(p, start, choose, moves, h.trace, m, hm, c)
    ensures LastAnnounced(h.trace) >= c.sn
    decreases |moves|
  {
    hide Step, Play, NoRestore, LastAnnounced, CurrentEpoch;
    var n := |moves| - 1;
    var h1 := LastStep(p, start, choose, moves, h, m, hm);
    PartHasNoRestore(hm.trace, h1.trace, h.trace);
    StateReadsAnnounced(p, start, choose, moves, h);
    StateReadsAnnounced(p, start, choose, moves[..n], h1);
    if m < n {
      assert moves[..n][..m] == moves[..m];
      AgreedAreAnnounced(p, start, choose, moves[..n], h1, m, hm, c);
    }
    if Installs(h1.s, moves[n].input) {
      InstallRestores(p, h1, moves[n]);
      assert false;
    }
    StepAnnounces(p, h1.s, moves[n].input, moves[n].choose);
  }

  /** In every run: what is announced was agreed on, or installed. */
  lemma {:induction false} AnnouncedWasAgreed(
      p: Params, start: StableCheckpoint, choose: Chooser, moves: seq<Move>, h: History, c: StableCheckpoint)
    returns (m: nat)
    requires Plays(p, start, choose, moves, h) && StableChkp(c) in h.trace
    ensures m < |moves|
    ensures moves[m].input == SbCheckpoint(Some(c)) || moves[m].input == CheckpointValidated(true, c)
    decreases |moves|
  {
    hide Step, StartEpoch;
    if moves == [] {
      NothingAnnounced(p, start, choose);
      assert false;
    } else {
      var init, last := moves[..|moves| - 1], moves[|moves| - 1];
      var h0 := Play(p, start, choose, init).value;
      if StableChkp(c) in h0.trace {
        m := AnnouncedWasAgreed(p, start, choose, init, h0, c);
      } else {
        m := |init|;
        if Installs(h0.s, last.input) {
          InstallAnnounces(p, h0.s, last.input, last.choose);
        } else {
          StepAnnounces(p, h0.s, last.input, last.choose);
        }
      }
    }
  }

  lemma NothingAnnounced(p: Params, start: StableCheckpoint, choose: Chooser)
    requires Begin(p, start, choose).Some?
    ensures forall e | e in Begin(p, start, choose).value.trace :: !e.StableChkp?
  {
    hide SegmentsOf, EpochLen;
  }

  lemma InstallAnnounces(p: Params, s: State, i: Input, choose: Chooser)
    requires Installs(s, i) && Step(p, s, i, choose).Ok?
    ensures forall e | e in Step(p, s, i, choose).out && e.StableChkp? :: e.chkp == i.chkp
  {
    hide SegmentsOf, EpochLen;
  }
}
