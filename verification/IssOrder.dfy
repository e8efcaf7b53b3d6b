/** If all nodes get the same outcome for a sequence number, ISS delivers the same certificate at that number on all
    nodes. */
module IssOrder {
  import opened Quorums
  import opened Types
  import opened Segments
  import opened Iss
  import opened IssRuns
  import opened IssTheorems
  import LP = LeaderPolicies
  import SortedKeys

  /** The agreed outcome for every sequence number: a valid certificate, or nothing. */
  type Decided = SeqNr -> Option<SbData>

  function Content(e: Entry): Option<SbData> {
    if e.aborted then None else Some(e.data)
  }

  /** What the outcome of an input is, if it is one for a sequence number. */
  function OutcomeOf(i: Input): Option<(SeqNr, Option<SbData>)> {
    match i
    case SbDeliver(sn, data, aborted, _) => if aborted || data.Unreadable? then Some((sn, None)) else None
    case CertVerified(valid, sn, data, _) => Some((sn, if valid then Some(data) else None))
    case _ => None
  }

  ghost predicate Agrees(i: Input, decided: Decided) {
    OutcomeOf(i).Some? ==> OutcomeOf(i).value.1 == decided(OutcomeOf(i).value.0)
  }

  ghost predicate LogAgrees(log: map<SeqNr, Entry>, decided: Decided) {
    forall sn | sn in log :: Content(log[sn]) == decided(sn)
  }

  ghost predicate CertsAgree(events: seq<Event>, decided: Decided) {
    forall e | e in events && e.DeliverCert? :: e.cert == decided(e.sn)
  }

  ghost predicate OutcomeAgrees(o: Outcome, decided: Decided) {
    o.Ok? ==> LogAgrees(o.s.commitLog, decided) && CertsAgree(o.out, decided)
  }

  lemma {:induction false} RunCertsAgree(log: map<SeqNr, Entry>, next: SeqNr, decided: Decided)
    requires LogAgrees(log, decided)
    ensures CertsAgree(CertEvents(Iss.Run(log, next), next), decided)
    decreases |log|
  {
    if next in log {
      var run, rest := Iss.Run(log, next), Iss.Run(log - {next}, next + 1);
      RunCertsAgree(log - {next}, next + 1, decided);
      assert run[1..] == rest;
      assert CertEvents(run, next) == [CertEvent(log[next], next)] + CertEvents(rest, next + 1);
    } else {
      assert CertEvents(Iss.Run(log, next), next) == [];
    }
  }

  lemma StartAgrees(p: Params, s: State, nr: EpochNr, leaders: seq<NodeId>, decided: Decided)
    requires LogAgrees(s.commitLog, decided)
    ensures OutcomeAgrees(StartEpoch(p, s, nr, leaders), decided)
  {
    hide SegmentsOf, EpochLen;
  }

  lemma AdvanceAgrees(p: Params, s: State, choose: Chooser, decided: Decided)
    requires s.nextNewMembership.Some? && LogAgrees(s.commitLog, decided)
    ensures OutcomeAgrees(AdvanceEpoch(p, s, choose), decided)
  {
    hide StartEpoch, LP.Reconfigure;
    if s.memberships != [] {
      var memberships := s.memberships[1..] + [s.nextNewMembership.value];
      var policy := LP.Reconfigure(s.policy, memberships[0]);
      var s1 := s.(memberships := memberships, nextNewMembership := None, policy := policy);
      StartAgrees(p, s1, s.epoch.nr + 1, choose(policy), decided);
    }
  }

  lemma ProcessAgrees(p: Params, s: State, choose: Chooser, decided: Decided)
    requires LogAgrees(s.commitLog, decided)
    ensures OutcomeAgrees(ProcessCommitted(p, s, choose), decided)
  {
    hide AdvanceEpoch, CertEvents, Readable, Iss.Run, SuspectAll;
    RunCertsAgree(s.commitLog, s.nextDeliveredSN, decided);
    if EpochFinished(Drained(s)) {
      AdvanceAgrees(p, Drained(s), choose, decided);
    }
  }

  lemma StepAgreesWith(p: Params, s: State, i: Input, choose: Chooser, decided: Decided)
    requires LogAgrees(s.commitLog, decided) && Agrees(i, decided)
    ensures OutcomeAgrees(Step(p, s, i, choose), decided)
  {
    hide ProcessCommitted, AdvanceEpoch, StartEpoch, LP.Suspect, SortedKeys.Sorted;
    match i
    case SbDeliver(sn, data, aborted, leader) =>
      if aborted {
        ProcessAgrees(p, s.(commitLog := s.commitLog[sn := Entry(data, true, leader)]), choose, decided);
      } else if data.Unreadable? {
        ProcessAgrees(p, s.(policy := LP.Suspect(s.policy, s.epoch.nr, leader),
                            commitLog := s.commitLog[sn := Entry(EMPTY, true, leader)]), choose, decided);
      }
    case SbCheckpoint(common) =>
      if common.Some? {
        ProcessAgrees(p, s.(lastStable := common.value), choose, decided);
      }
    case CertVerified(valid, sn, data, leader) =>
      if valid {
        ProcessAgrees(p, s.(commitLog := s.commitLog[sn := Entry(data, false, leader)]), choose, decided);
      } else {
        ProcessAgrees(p, s.(policy := LP.Suspect(s.policy, s.epoch.nr, leader),
                            commitLog := s.commitLog[sn := Entry(EMPTY, true, leader)]), choose, decided);
      }
    case NewConfig(epochNr, m) =>
      AdvanceAgrees(p, s.(nextNewMembership := Some(m)), choose, decided);
    case ProtocolCheckpoint(chkp) =>
    case CheckpointReceived(chkp) =>
    case CheckpointValidated(ok, chkp) =>
      if Installs(s, i) {
        var policy := chkp.snapshot.epochData.leaderPolicy.policy;
        StartAgrees(p, Installed(s, chkp, policy), chkp.Epoch(), choose(policy), decided);
      }
  }

  ghost predicate AllAgree(moves: seq<Move>, decided: Decided) {
    forall i | 0 <= i < |moves| :: Agrees(moves[i].input, decided)
  }

  /** In every run, what is delivered at a sequence number is what was decided for it. */
  lemma {:induction false} DeliversWhatWasDecided(
      p: Params, start: StableCheckpoint, choose: Chooser, moves: seq<Move>, decided: Decided)
    requires Play(p, start, choose, moves).Some? && AllAgree(moves, decided)
    ensures
      var h := Play(p, start, choose, moves).value;
      LogAgrees(h.s.commitLog, decided) && CertsAgree(h.trace, decided)
    decreases |moves|
  {
    hide Step, LogAgrees, StartEpoch;
    if moves == [] {
      var policy := start.snapshot.epochData.leaderPolicy.policy;
      EmptyLogAgrees(decided);
      StartAgrees(p, New(start, policy), start.Epoch(), choose(policy), decided);
    } else {
      var init, last := moves[..|moves| - 1], moves[|moves| - 1];
      DeliversWhatWasDecided(p, start, choose, init, decided);
      var h := Play(p, start, choose, init).value;
      StepAgreesWith(p, h.s, last.input, last.choose, decided);
    }
  }

  lemma EmptyLogAgrees(decided: Decided)
    ensures LogAgrees(map[], decided)
  {}

  // ---------------------------------------------------------------- two nodes

  /** The delivered certificates since the last restore. */
  function DeliveredCerts(trace: seq<Event>): seq<Option<SbData>> {
    if trace == [] then []
    else
      var before := DeliveredCerts(trace[..|trace| - 1]);
      match trace[|trace| - 1]
      case RestoreState(_) => []
      case DeliverCert(_, cert) => before + [cert]
      case _ => before
  }

  lemma {:induction false} CertsMatchNumbers(trace: seq<Event>, decided: Decided)
    requires CertsAgree(trace, decided)
    ensures |DeliveredCerts(trace)| == |Delivered(trace)|
    ensures forall k | 0 <= k < |Delivered(trace)| :: DeliveredCerts(trace)[k] == decided(Delivered(trace)[k])
    decreases |trace|
  {
    if trace != [] {
      var before, e := trace[..|trace| - 1], trace[|trace| - 1];
      assert forall x | x in before :: x in trace;
      assert e in trace;
      CertsMatchNumbers(before, decided);
    }
  }

  /** Since the last restore, this certificate (or none) was delivered at this sequence number. */
  ghost predicate DeliveredAt(trace: seq<Event>, sn: SeqNr, cert: Option<SbData>) {
    var k := sn - Base(trace);
    && 0 <= k < |Delivered(trace)| && k < |DeliveredCerts(trace)|
    && Delivered(trace)[k] == sn && DeliveredCerts(trace)[k] == cert
  }

  /** Every number below the next one was delivered, with the decided outcome. */
  lemma DeliveredAsDecided(
      p: Params, start: StableCheckpoint, choose: Chooser, moves: seq<Move>, h: History, decided: Decided, sn: SeqNr)
    requires Plays(p, start, choose, moves, h) && AllAgree(moves, decided)
    requires Base(h.trace) <= sn < h.s.nextDeliveredSN
    ensures DeliveredAt(h.trace, sn, decided(sn))
  {
    hide Play, DeliveredCerts, Delivered, Base, EpochStart, EpochSize, CertsAgree;
    GapFreeDelivery(p, start, choose, moves, h);
    DeliversWhatWasDecided(p, start, choose, moves, decided);
    CertsMatchNumbers(h.trace, decided);
  }

  lemma OnlyDecided(
      p: Params, start: StableCheckpoint, choose: Chooser, moves: seq<Move>, h: History,
      decided: Decided, sn: SeqNr, cert: Option<SbData>)
    requires Plays(p, start, choose, moves, h) && AllAgree(moves, decided) && DeliveredAt(h.trace, sn, cert)
    ensures cert == decided(sn)
  {
    hide Play, DeliveredCerts, Delivered, Base, CertsAgree;
    DeliversWhatWasDecided(p, start, choose, moves, decided);
    CertsMatchNumbers(h.trace, decided);
  }

  /** Two nodes that get the same outcomes from the layers below never deliver different certificates at the same
      sequence number. */
  lemma SameOutcomesSameCerts(
      p: Params, start: StableCheckpoint, choose: Chooser, moves: seq<Move>, h: History, cert: Option<SbData>,
      p': Params, start': StableCheckpoint, choose': Chooser, moves': seq<Move>, h': History, cert': Option<SbData>,
      decided: Decided, sn: SeqNr)
    requires Plays(p, start, choose, moves, h) && AllAgree(moves, decided)
    requires Plays(p', start', choose', moves', h') && AllAgree(moves', decided)
    requires DeliveredAt(h.trace, sn, cert) && DeliveredAt(h'.trace, sn, cert')
    ensures cert == cert'
  {
    hide Plays, AllAgree, DeliveredAt;
    OnlyDecided(p, start, choose, moves, h, decided, sn, cert);
    OnlyDecided(p', start', choose', moves', h', decided, sn, cert');
  }
}
