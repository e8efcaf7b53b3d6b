/** State transfer matches execution: a node that installs the checkpoint of an epoch continues like a
    node that advanced into that epoch and delivered the same checkpoint. */
module StateTransfer {
  import opened Lists
  import opened Quorums
  import opened Types
  import opened Segments
  import opened Iss
  import opened IssRuns
  import LP = LeaderPolicies
  import SortedKeys
  import Checkpoint

  // ---------------------------------------------------------------- equivalent states

  ghost predicate AgreeFrom(a: map<SeqNr, Entry>, b: map<SeqNr, Entry>, next: SeqNr) {
    forall sn | sn >= next :: (sn in a <==> sn in b) && (sn in a ==> a[sn] == b[sn])
  }

  /** Equal up to log entries that can no longer be delivered, the checkpoints the node itself proposed, and the
      table of epochs kept for pruning. */
  ghost predicate Same(a: State, b: State) {
    && a == b.(commitLog := a.commitLog, lastPendingSN := a.lastPendingSN, epochs := a.epochs)
    && AgreeFrom(a.commitLog, b.commitLog, a.nextDeliveredSN)
  }

  lemma {:induction false} RunAgrees(a: map<SeqNr, Entry>, b: map<SeqNr, Entry>, next: SeqNr)
    requires AgreeFrom(a, b, next)
    ensures Iss.Run(a, next) == Iss.Run(b, next)
    decreases |a|
  {
    if next in a {
      RunAgrees(a - {next}, b - {next}, next + 1);
    } else {
      assert next !in b;
    }
  }

  lemma DrainAgrees(a: State, b: State)
    requires Same(a, b)
    ensures Same(Drained(a), Drained(b))
    ensures Iss.Run(a.commitLog, a.nextDeliveredSN) == Iss.Run(b.commitLog, b.nextDeliveredSN)
  {
    hide SuspectAll, Iss.Run;
    RunAgrees(a.commitLog, b.commitLog, a.nextDeliveredSN);
  }

  ghost predicate SameOutcome(oa: Outcome, ob: Outcome) {
    (oa.Ok? <==> ob.Ok?) && (oa.Ok? ==> Same(oa.s, ob.s) && oa.out == ob.out)
  }

  lemma StartAgrees(p: Params, a: State, b: State, nr: EpochNr, leaders: seq<NodeId>)
    requires Same(a, b)
    ensures SameOutcome(StartEpoch(p, a, nr, leaders), StartEpoch(p, b, nr, leaders))
  {
    hide EpochLen, SegmentsOf, OrdererEvents;
  }

  lemma AdvanceAgrees(p: Params, a: State, b: State, choose: Chooser)
    requires Same(a, b) && a.nextNewMembership.Some?
    ensures SameOutcome(AdvanceEpoch(p, a, choose), AdvanceEpoch(p, b, choose))
  {
    hide StartEpoch, LP.Reconfigure;
    if a.memberships != [] {
      var memberships := a.memberships[1..] + [a.nextNewMembership.value];
      var policy := LP.Reconfigure(a.policy, memberships[0]);
      StartAgrees(p, a.(memberships := memberships, nextNewMembership := None, policy := policy),
                  b.(memberships := memberships, nextNewMembership := None, policy := policy),
                  a.epoch.nr + 1, choose(policy));
    }
  }

  lemma ProcessAgrees(p: Params, a: State, b: State, choose: Chooser)
    requires Same(a, b)
    ensures SameOutcome(ProcessCommitted(p, a, choose), ProcessCommitted(p, b, choose))
  {
    hide Drained, AdvanceEpoch, Iss.Run, CertEvents, Readable;
    DrainAgrees(a, b);
    if EpochFinished(Drained(a)) {
      AdvanceAgrees(p, Drained(a), Drained(b), choose);
    }
  }

  lemma InsertAgrees(p: Params, a: State, b: State, sn: SeqNr, e: Entry, choose: Chooser)
    requires Same(a, b)
    ensures SameOutcome(Insert(p, a, sn, e, choose), Insert(p, b, sn, e, choose))
  {
    hide ProcessCommitted;
    ProcessAgrees(p, a.(commitLog := a.commitLog[sn := e]), b.(commitLog := b.commitLog[sn := e]), choose);
  }

  /** Proposing a checkpoint for agreement picks a leader among the nodes that signed it. */
  ghost predicate Sensible(i: Input) {
    i.ProtocolCheckpoint? ==> i.chkp.PreviousMembership() != map[]
  }

  /** Equivalent states stay equivalent on every input, and send the same events, except that each
      node proposes for agreement the checkpoints it has not proposed before. */
  lemma StepAgrees(p: Params, a: State, b: State, i: Input, choose: Chooser)
    requires Same(a, b) && Sensible(i)
    ensures
      var oa, ob := Step(p, a, i, choose), Step(p, b, i, choose);
      && (oa.Ok? <==> ob.Ok?)
      && (oa.Ok? ==> Same(oa.s, ob.s) && Certs(oa.out) == Certs(ob.out))
      && (oa.Ok? && !i.ProtocolCheckpoint? ==> oa.out == ob.out)
  {
    hide Insert, ProcessCommitted, AdvanceEpoch, StartEpoch, LP.Suspect, SortedKeys.Sorted, Certs;
    match i
    case SbDeliver(sn, data, aborted, leader) =>
      var policy := LP.Suspect(a.policy, a.epoch.nr, leader);
      InsertAgrees(p, a, b, sn, Entry(data, true, leader), choose);
      InsertAgrees(p, a.(policy := policy), b.(policy := policy), sn, Entry(EMPTY, true, leader), choose);
    case SbCheckpoint(common) =>
      if common.Some? {
        ProcessAgrees(p, a.(lastStable := common.value), b.(lastStable := common.value), choose);
      }
    case CertVerified(valid, sn, data, leader) =>
      var policy := LP.Suspect(a.policy, a.epoch.nr, leader);
      InsertAgrees(p, a, b, sn, Entry(data, false, leader), choose);
      InsertAgrees(p, a.(policy := policy), b.(policy := policy), sn, Entry(EMPTY, true, leader), choose);
    case NewConfig(epochNr, m) =>
      AdvanceAgrees(p, a.(nextNewMembership := Some(m)), b.(nextNewMembership := Some(m)), choose);
    case ProtocolCheckpoint(chkp) =>
      assert SortedKeys.Sorted(chkp.PreviousMembership().Keys) != [] by {
        var n :| n in chkp.PreviousMembership();
        assert n in SortedKeys.Sorted(chkp.PreviousMembership().Keys);
      }
      NoCerts(Step(p, a, i, choose).out);
      NoCerts(Step(p, b, i, choose).out);
    case CheckpointReceived(chkp) =>
    case CheckpointValidated(ok, chkp) =>
      if Installs(a, i) {
        var policy := chkp.snapshot.epochData.leaderPolicy.policy;
        StartAgrees(p, Installed(a, chkp, policy), Installed(b, chkp, policy), chkp.Epoch(), choose(policy));
      }
  }

  /** The certificates delivered to the application, in order. */
  function Certs(events: seq<Event>): seq<Event> {
    if events == [] then []
    else
      var last := events[|events| - 1];
      Certs(events[..|events| - 1]) + (if last.DeliverCert? then [last] else [])
  }

  lemma {:induction false} NoCerts(events: seq<Event>)
    requires forall e | e in events :: !e.DeliverCert?
    ensures Certs(events) == []
    decreases |events|
  {
    if events != [] {
      NoCerts(events[..|events| - 1]);
    }
  }

  lemma {:induction false} CertsConcat(a: seq<Event>, b: seq<Event>)
    ensures Certs(a + b) == Certs(a) + Certs(b)
    decreases |b|
  {
    if b == [] {
      assert a + b == a;
    } else {
      CertsConcat(a, b[..|b| - 1]);
      assert (a + b)[..|a + b| - 1] == a + b[..|b| - 1];
    }
  }

  function Steps(p: Params, s: State, xs: seq<Input>, choose: Chooser): Outcome {
    if xs == [] then Ok(s, [])
    else
      match Steps(p, s, xs[..|xs| - 1], choose)
      case Error => Error
      case Ok(s1, out1) =>
        match Step(p, s1, xs[|xs| - 1], choose)
        case Error => Error
        case Ok(s2, out2) => Ok(s2, out1 + out2)
  }

  /** Equivalent states deliver the same certificates for all further inputs. */
  lemma {:induction false} SameRuns(p: Params, a: State, b: State, xs: seq<Input>, choose: Chooser)
    requires Same(a, b) && forall i | i in xs :: Sensible(i)
    ensures
      var oa, ob := Steps(p, a, xs, choose), Steps(p, b, xs, choose);
      (oa.Ok? <==> ob.Ok?) && (oa.Ok? ==> Same(oa.s, ob.s) && Certs(oa.out) == Certs(ob.out))
    decreases |xs|
  {
    hide Step, Same, Sensible, Certs;
    if xs != [] {
      var init, last := xs[..|xs| - 1], xs[|xs| - 1];
      SameRuns(p, a, b, init, choose);
      var oa, ob := Steps(p, a, init, choose), Steps(p, b, init, choose);
      if oa.Ok? {
        StepAgrees(p, oa.s, ob.s, last, choose);
        if Step(p, oa.s, last, choose).Ok? {
          CertsConcat(oa.out, Step(p, oa.s, last, choose).out);
          CertsConcat(ob.out, Step(p, ob.s, last, choose).out);
        }
      }
    }
  }

  // ---------------------------------------------------------------- installing instead of advancing

  /** A checkpoint made by a checkpoint instance with these parameters. */
  ghost predicate MadeBy(params: Checkpoint.Params, c: StableCheckpoint) {
    var data := c.snapshot.epochData;
    && c.sn == params.config.firstSn && data.config == params.config
    && data.leaderPolicy == params.leaderPolicy && data.previousMembership == params.membership
  }

  /** Equivalent but for what depends on which leaders were chosen: the segments and where the epoch ends. */
  ghost predicate SameUpToLeaders(a: State, b: State) {
    Same(a, b.(epoch := b.epoch.(segments := a.epoch.segments), newEpochSN := a.newEpochSN))
  }

  /** What the checkpoint instance created by an advance was given. */
  lemma AdvanceCreates(p: Params, s: State, choose: Chooser, params: Checkpoint.Params)
    requires s.nextNewMembership.Some? && AdvanceEpoch(p, s, choose).Ok?
    requires NewChkpInstance(params) in AdvanceEpoch(p, s, choose).out
    ensures
      var a := AdvanceEpoch(p, s, choose).s;
      && params == ChkpParams(p, a, s.memberships[0]) && a.memberships != []
      && a.policy == LP.Reconfigure(s.policy, a.memberships[0])
  {
    hide EpochLen, SegmentsOf, LP.Reconfigure;
    var memberships := s.memberships[1..] + [s.nextNewMembership.value];
    var policy := LP.Reconfigure(s.policy, memberships[0]);
    var s1 := s.(memberships := memberships, nextNewMembership := None, policy := policy);
    assert NewChkpInstance(params) !in StartEpoch(p, s1, s.epoch.nr + 1, choose(policy)).out;
  }

  /** The leaders of a policy that was just reconfigured are members. */
  lemma ChoosesMembers(policy: LeaderPolicy, m: Membership, choose: Chooser)
    requires ProperChooser(choose) && (policy.Simple? || TotalWeight(m) > 0)
    ensures forall l | l in choose(LP.Reconfigure(policy, m)) :: l in m
  {
    hide TotalWeight;
    var leaders := choose(LP.Reconfigure(policy, m));
    assert policy.Blacklist? ==> forall l | l in leaders :: l in Elements(leaders);
  }

  /** Installing the checkpoint of the epoch that another node has just entered gives that node's state: epoch
      number, first and next sequence number, memberships, leader policy, also when the two nodes break ties among
      leaders differently. Under the Simple policy the segments and the end of the epoch are the same too. */
  lemma InstallMatchesAdvance(
      p: Params, s: State, t: State, params: Checkpoint.Params, c: StableCheckpoint, choose: Chooser, choose': Chooser)
    requires Bounded(s) && EpochFinished(s) && AdvanceEpoch(p, s, choose).Ok?
    requires NewChkpInstance(params) in AdvanceEpoch(p, s, choose).out && MadeBy(params, c)
    requires FarEnoughAhead(t, c) && ProperChooser(choose) && ProperChooser(choose')
    ensures
      var a, b := AdvanceEpoch(p, s, choose).s, Step(p, t, CheckpointValidated(true, c), choose');
      && a.memberships != [] && c.sn == a.epoch.firstSN && a.lastStable == s.lastStable
      && (s.policy.Simple? || TotalWeight(a.memberships[0]) > 0 ==> b.Ok?)
      && (b.Ok? ==> b.s.lastStable == c && SameUpToLeaders(a.(lastStable := c), b.s))
      && (s.policy.Simple? ==> Same(a.(lastStable := c), b.s))
  {
    hide EpochLen, SegmentsOf, LP.Reconfigure, TotalWeight, ProperChooser, OrdererEvents;
    var a := AdvanceEpoch(p, s, choose).s;
    AdvanceCreates(p, s, choose, params);
    if s.policy.Simple? || TotalWeight(a.memberships[0]) > 0 {
      ChoosesMembers(s.policy, a.memberships[0], choose');
    }
    if s.policy.Simple? {
      SimpleIsFixed(s.policy, a.memberships[0], choose, choose');
    }
  }

  lemma SimpleIsFixed(policy: LeaderPolicy, m: Membership, choose: Chooser, choose': Chooser)
    requires policy.Simple? && ProperChooser(choose) && ProperChooser(choose')
    ensures choose(LP.Reconfigure(policy, m)) == choose'(LP.Reconfigure(policy, m))
  {
    hide SortedKeys.Sorted;
  }

  // ---------------------------------------------------------------- inputs that overtake the checkpoint

  /** In the epoch the checkpoint starts, but without it; the leader policy ignores suspicions. */
  ghost predicate Waiting(s: State, c: StableCheckpoint) {
    s.lastStable.sn < c.sn == s.epoch.firstSN && s.policy.Simple?
  }

  /** What the orderers, the availability layer and the application can send in that situation: one
      result for a sequence number of the epoch, and memberships. */
  ghost predicate Early(s: State, i: Input) {
    match i
    case SbDeliver(sn, data, aborted, _) => aborted || data.Unreadable? ==> Awaited(s, sn)
    case CertVerified(_, sn, _, _) => Awaited(s, sn)
    case NewConfig(_, _) => true
    case CheckpointReceived(_) => true
    case ProtocolCheckpoint(_) => Sensible(i)
    case _ => false
  }

  ghost predicate Awaited(s: State, sn: SeqNr) {
    s.nextDeliveredSN <= sn < s.newEpochSN && sn !in s.commitLog
  }

  /** Delivering what is there and then inserting one more entry comes to the same as inserting it first. */
  lemma {:induction false} RunInsert(log: map<SeqNr, Entry>, next: SeqNr, sn: SeqNr, e: Entry)
    requires sn !in log && next <= sn
    ensures
      var r := Iss.Run(log, next);
      var end := next + |r|;
      end <= sn && Iss.Run(log[sn := e], next) == r + Iss.Run(Without(log, next, end)[sn := e], end)
    decreases |log|
  {
    if next in log {
      var rest := log - {next};
      RunInsert(rest, next + 1, sn, e);
      assert log[sn := e] - {next} == rest[sn := e];
      var end := next + |Iss.Run(log, next)|;
      assert Without(rest, next + 1, end) == Without(log, next, end);
    } else {
      assert Without(log, next, next) == log;
    }
  }

  lemma {:induction false} CertEventsConcat(a: seq<Entry>, b: seq<Entry>, next: SeqNr)
    ensures CertEvents(a + b, next) == CertEvents(a, next) + CertEvents(b, next + |a|)
    decreases |a|
  {
    if a == [] {
      assert a + b == b;
    } else {
      hide CertEvent;
      var first, rest, last := [CertEvent(a[0], next)], CertEvents(a[1..], next + 1), CertEvents(b, next + |a|);
      CertEventsConcat(a[1..], b, next + 1);
      assert (a + b)[1..] == a[1..] + b;
      assert CertEvents(a + b, next) == first + (rest + last);
      assert CertEvents(a, next) == first + rest;
    }
  }

  lemma {:induction false} SimpleIgnoresSuspicions(policy: LeaderPolicy, nr: EpochNr, entries: seq<Entry>)
    requires policy.Simple?
    ensures SuspectAll(policy, nr, entries) == policy
    decreases |entries|
  {
    if entries != [] {
      SimpleIgnoresSuspicions(policy, nr, entries[1..]);
    }
  }

  lemma DrainInsert(s: State, sn: SeqNr, e: Entry)
    requires Awaited(s, sn) && s.policy.Simple?
    ensures
      var d := Drained(s);
      var d1, s1 := d.(commitLog := d.commitLog[sn := e]), s.(commitLog := s.commitLog[sn := e]);
      && d.nextDeliveredSN <= sn && d.policy == s.policy
      && Drained(d1) == Drained(s1)
      && Iss.Run(s1.commitLog, s1.nextDeliveredSN) ==
           Iss.Run(s.commitLog, s.nextDeliveredSN) + Iss.Run(d1.commitLog, d1.nextDeliveredSN)
  {
    hide SuspectAll, Iss.Run, LP.Suspect;
    var d := Drained(s);
    var d1, s1 := d.(commitLog := d.commitLog[sn := e]), s.(commitLog := s.commitLog[sn := e]);
    RunInsert(s.commitLog, s.nextDeliveredSN, sn, e);
    SimpleIgnoresSuspicions(s.policy, s.epoch.nr, Iss.Run(s.commitLog, s.nextDeliveredSN));
    SimpleIgnoresSuspicions(s.policy, s.epoch.nr, Iss.Run(d1.commitLog, d1.nextDeliveredSN));
    SimpleIgnoresSuspicions(s.policy, s.epoch.nr, Iss.Run(s1.commitLog, s1.nextDeliveredSN));
    assert Drained(d1).commitLog == Drained(s1).commitLog;
  }

  /** What a waiting node does once the checkpoint arrives. */
  function CatchUp(p: Params, s: State, c: StableCheckpoint, choose: Chooser): Outcome {
    ProcessCommitted(p, s.(lastStable := c), choose)
  }

  /** Handling `i` before the checkpoint, reaching s1, or after it comes to the same. */
  ghost predicate Commutes(p: Params, s: State, i: Input, s1: State, c: StableCheckpoint, choose: Chooser) {
    CatchUp(p, s1, c, choose).Ok? ==>
      && CatchUp(p, s, c, choose).Ok?
      && Step(p, CatchUp(p, s, c, choose).s, i, choose).Ok?
      && Same(Step(p, CatchUp(p, s, c, choose).s, i, choose).s, CatchUp(p, s1, c, choose).s)
      && Certs(CatchUp(p, s1, c, choose).out) ==
           Certs(CatchUp(p, s, c, choose).out) + Certs(Step(p, CatchUp(p, s, c, choose).s, i, choose).out)
  }

  lemma SplitReadable(a: seq<Entry>, b: seq<Entry>)
    ensures Readable(a + b) <==> Readable(a) && Readable(b)
  {
    assert forall e | e in a :: e in a + b;
    assert forall e | e in b :: e in a + b;
  }

  /** Catching up with one more entry is catching up and then inserting the entry. */
  lemma InsertCommutes(p: Params, s: State, sn: SeqNr, e: Entry, c: StableCheckpoint, choose: Chooser)
    requires Waiting(s, c) && Awaited(s, sn)
    requires CatchUp(p, s.(commitLog := s.commitLog[sn := e]), c, choose).Ok?
    ensures
      var o := CatchUp(p, s.(commitLog := s.commitLog[sn := e]), c, choose);
      var o0 := CatchUp(p, s, c, choose);
      && o0.Ok? && o0.s.policy == s.policy && o0.s.epoch == s.epoch
      && Insert(p, o0.s, sn, e, choose).Ok? && Insert(p, o0.s, sn, e, choose).s == o.s
      && Certs(o.out) == Certs(o0.out) + Certs(Insert(p, o0.s, sn, e, choose).out)
  {
    hide AdvanceEpoch, CertEvents, Readable, Iss.Run, Certs, SuspectAll, Without;
    var sc := s.(lastStable := c);
    DrainInsert(sc, sn, e);
    var d := Drained(sc);
    var d1, s1 := d.(commitLog := d.commitLog[sn := e]), sc.(commitLog := sc.commitLog[sn := e]);
    var r, r1 := Iss.Run(sc.commitLog, sc.nextDeliveredSN), Iss.Run(d1.commitLog, d1.nextDeliveredSN);
    SplitReadable(r, r1);
    CertEventsConcat(r, r1, s.nextDeliveredSN);
    var first, second := CertEvents(r, s.nextDeliveredSN), CertEvents(r1, d.nextDeliveredSN);
    CertsConcat(first, second);
    if EpochFinished(Drained(s1)) {
      var out := AdvanceEpoch(p, Drained(s1), choose).out;
      CertsConcat(first + second, out);
      CertsConcat(second, out);
    }
  }

  lemma ConfigCommutes(p: Params, s: State, i: Input, c: StableCheckpoint, choose: Chooser)
    requires Waiting(s, c) && i.NewConfig? && AcceptsMembership(s, i)
    ensures Commutes(p, s, i, s.(nextNewMembership := Some(i.membership)), c, choose)
  {
    hide AdvanceEpoch, CertEvents, Readable, Iss.Run, Certs, SuspectAll, Without;
    var s1 := s.(nextNewMembership := Some(i.membership));
    var sc, s1c := s.(lastStable := c), s1.(lastStable := c);
    assert Drained(s1c) == Drained(sc).(nextNewMembership := Some(i.membership));
    CertsOfNothing();
    if EpochFinished(Drained(s1c)) && AdvanceEpoch(p, Drained(s1c), choose).Ok? {
      var certs := CertEvents(Iss.Run(s.commitLog, s.nextDeliveredSN), s.nextDeliveredSN);
      CertsConcat(certs, AdvanceEpoch(p, Drained(s1c), choose).out);
    }
  }

  lemma CertsOfNothing()
    ensures Certs([]) == []
  {}

  lemma OneOther(e: Event)
    requires !e.DeliverCert?
    ensures Certs([e]) == []
  {
    NoCerts([e]);
  }

  /** An input that leaves the state as it is, up to what the node itself proposed. */
  lemma IdleCommutes(p: Params, s: State, i: Input, s1: State, c: StableCheckpoint, choose: Chooser)
    requires Same(s1, s) && Sensible(i)
    requires i.ProtocolCheckpoint? || i.CheckpointReceived? || (i.SbDeliver? && !i.aborted && i.data.Cert?)
             || (i.NewConfig? && i.epochNr < s.epoch.nr)
    requires CatchUp(p, s, c, choose).Ok? ==> CatchUp(p, s, c, choose).s.epoch.nr >= s.epoch.nr
    ensures Commutes(p, s, i, s1, c, choose)
  {
    hide ProcessCommitted, SortedKeys.Sorted, Certs;
    ProcessAgrees(p, s1.(lastStable := c), s.(lastStable := c), choose);
    CertsOfNothing();
    if CatchUp(p, s, c, choose).Ok? {
      var s2 := CatchUp(p, s, c, choose).s;
      if i.ProtocolCheckpoint? {
        assert SortedKeys.Sorted(i.chkp.PreviousMembership().Keys) != [] by {
          var n :| n in i.chkp.PreviousMembership();
          assert n in SortedKeys.Sorted(i.chkp.PreviousMembership().Keys);
        }
      }
      NoCerts(Step(p, s2, i, choose).out);
    }
  }

  lemma CatchUpMovesOn(p: Params, s: State, c: StableCheckpoint, choose: Chooser)
    ensures CatchUp(p, s, c, choose).Ok? ==> CatchUp(p, s, c, choose).s.epoch.nr >= s.epoch.nr
  {
    hide LP.Reconfigure, SegmentsOf, EpochLen, OrdererEvents, CertEvents, Iss.Run, Readable, SuspectAll, Without;
  }

  lemma EarlyInsert(p: Params, s: State, i: Input, sn: SeqNr, e: Entry, c: StableCheckpoint, choose: Chooser)
    requires Waiting(s, c) && Awaited(s, sn)
    requires forall t: State | t.policy == s.policy && t.epoch == s.epoch ::
      Step(p, t, i, choose) == Insert(p, t, sn, e, choose)
    ensures Step(p, s, i, choose) == Ok(s.(commitLog := s.commitLog[sn := e]), [])
    ensures Commutes(p, s, i, s.(commitLog := s.commitLog[sn := e]), c, choose)
  {
    assert Step(p, s, i, choose) == Insert(p, s, sn, e, choose);
    assert Insert(p, s, sn, e, choose) == Ok(s.(commitLog := s.commitLog[sn := e]), []);
    hide ProcessCommitted, Step, Certs, Insert;
    if CatchUp(p, s.(commitLog := s.commitLog[sn := e]), c, choose).Ok? {
      InsertCommutes(p, s, sn, e, c, choose);
      var s0 := CatchUp(p, s, c, choose).s;
      assert Step(p, s0, i, choose) == Insert(p, s0, sn, e, choose);
    }
  }

  lemma SuspicionIgnored(policy: LeaderPolicy, nr: EpochNr, node: NodeId)
    requires policy.Simple?
    ensures LP.Suspect(policy, nr, node) == policy
  {}

  /** A waiting node delivers nothing, and what it does with an input it would also do after the checkpoint. */
  lemma EarlyStep(p: Params, s: State, i: Input, c: StableCheckpoint, choose: Chooser)
    requires Waiting(s, c) && Early(s, i) && Step(p, s, i, choose).Ok?
    ensures
      var o := Step(p, s, i, choose);
      Waiting(o.s, c) && Certs(o.out) == [] && Commutes(p, s, i, o.s, c, choose)
  {
    hide ProcessCommitted, Certs, Commutes, LP.Suspect, SortedKeys.Sorted, Insert;
    CertsOfNothing();
    CatchUpMovesOn(p, s, c, choose);
    match i
    case SbDeliver(sn, data, aborted, leader) =>
      SuspicionIgnored(s.policy, s.epoch.nr, leader);
      if aborted {
        EarlyInsert(p, s, i, sn, Entry(data, true, leader), c, choose);
      } else if data.Unreadable? {
        EarlyInsert(p, s, i, sn, Entry(EMPTY, true, leader), c, choose);
      } else {
        OneOther(VerifyCert(s.epoch.nr, sn, data, leader));
        IdleCommutes(p, s, i, s, c, choose);
      }
    case CertVerified(valid, sn, data, leader) =>
      SuspicionIgnored(s.policy, s.epoch.nr, leader);
      EarlyInsert(p, s, i, sn, if valid then Entry(data, false, leader) else Entry(EMPTY, true, leader), c, choose);
    case NewConfig(epochNr, m) =>
      if epochNr < s.epoch.nr {
        IdleCommutes(p, s, i, s, c, choose);
      } else {
        ConfigCommutes(p, s, i, c, choose);
      }
    case CheckpointReceived(chkp) =>
      OneOther(ValidateCheckpoint(chkp, s.epoch.nr, s.memberships));
      IdleCommutes(p, s, i, s, c, choose);
    case ProtocolCheckpoint(chkp) =>
      var o := Step(p, s, i, choose);
      NoCerts(o.out);
      IdleCommutes(p, s, i, o.s, c, choose);
  }

  ghost predicate EarlyRun(p: Params, s: State, xs: seq<Input>, choose: Chooser) {
    xs == [] ||
      var o := Steps(p, s, xs[..|xs| - 1], choose);
      EarlyRun(p, s, xs[..|xs| - 1], choose) && (o.Ok? ==> Early(o.s, xs[|xs| - 1]))
  }

  /** Inputs a waiting node handles before the checkpoint, and a node that has caught up after it. */
  lemma {:induction false} OvertakenInputs(
      p: Params, a: State, b: State, xs: seq<Input>, c: StableCheckpoint, choose: Chooser)
    requires Waiting(a, c) && EarlyRun(p, a, xs, choose) && Steps(p, a, xs, choose).Ok?
    requires CatchUp(p, a, c, choose).Ok? && Same(CatchUp(p, a, c, choose).s, b)
    requires CatchUp(p, Steps(p, a, xs, choose).s, c, choose).Ok?
    ensures
      var oa, ob := Steps(p, a, xs, choose), Steps(p, b, xs, choose);
      && Waiting(oa.s, c) && Certs(oa.out) == []
      && ob.Ok? && Same(CatchUp(p, oa.s, c, choose).s, ob.s)
      && Certs(CatchUp(p, oa.s, c, choose).out) == Certs(CatchUp(p, a, c, choose).out) + Certs(ob.out)
    decreases |xs|
  {
    hide Step, CatchUp, Same, Waiting, Certs;
    CertsOfNothing();
    if xs != [] {
      var init, last := xs[..|xs| - 1], xs[|xs| - 1];
      var oa := Steps(p, a, init, choose);
      assert Waiting(oa.s, c) by {
        WaitsOn(p, a, init, c, choose);
      }
      EarlyStep(p, oa.s, last, c, choose);
      OvertakenInputs(p, a, b, init, c, choose);
      var ob := Steps(p, b, init, choose);
      var s0 := CatchUp(p, oa.s, c, choose).s;
      EarlyIsSensible(oa.s, last);
      StepAgrees(p, s0, ob.s, last, choose);
      var end := CatchUp(p, Steps(p, a, xs, choose).s, c, choose).s;
      SameTransitive(end, Step(p, s0, last, choose).s, Step(p, ob.s, last, choose).s);
      CertsConcat(oa.out, Step(p, oa.s, last, choose).out);
      CertsConcat(ob.out, Step(p, ob.s, last, choose).out);
    }
  }

  lemma {:induction false} WaitsOn(p: Params, a: State, xs: seq<Input>, c: StableCheckpoint, choose: Chooser)
    requires Waiting(a, c) && EarlyRun(p, a, xs, choose) && Steps(p, a, xs, choose).Ok?
    ensures Waiting(Steps(p, a, xs, choose).s, c)
    decreases |xs|
  {
    hide Step;
    if xs != [] {
      WaitsOn(p, a, xs[..|xs| - 1], c, choose);
      EarlyStep(p, Steps(p, a, xs[..|xs| - 1], choose).s, xs[|xs| - 1], c, choose);
    }
  }

  lemma EarlyIsSensible(s: State, i: Input)
    requires Early(s, i)
    ensures Sensible(i)
  {}

  lemma SameTransitive(a: State, b: State, c: State)
    requires Same(b, a) && Same(b, c)
    ensures Same(a, c)
  {}

  /** A node that advances, handles `early` and then gets the checkpoint, compared with one of the same
      identity that installs the checkpoint and handles `early` afterwards. */
  lemma TransferOnOneNode(
      p: Params, s: State, t: State, params: Checkpoint.Params, c: StableCheckpoint,
      early: seq<Input>, later: seq<Input>, choose: Chooser)
    requires Bounded(s) && EpochFinished(s) && s.policy.Simple? && s.lastStable.sn < s.newEpochSN
    requires AdvanceEpoch(p, s, choose).Ok? && NewChkpInstance(params) in AdvanceEpoch(p, s, choose).out
    requires MadeBy(params, c) && FarEnoughAhead(t, c) && ProperChooser(choose)
    requires EarlyRun(p, AdvanceEpoch(p, s, choose).s, early, choose) && forall i | i in later :: Sensible(i)
    requires Steps(p, AdvanceEpoch(p, s, choose).s, early, choose).Ok?
    requires Step(p, Steps(p, AdvanceEpoch(p, s, choose).s, early, choose).s, SbCheckpoint(Some(c)), choose).Ok?
    ensures
      var executed := Steps(p, AdvanceEpoch(p, s, choose).s, early + [SbCheckpoint(Some(c))], choose);
      var installed := Step(p, t, CheckpointValidated(true, c), choose);
      && executed.Ok? && installed.Ok?
      && var caughtUp := Steps(p, installed.s, early, choose);
         && caughtUp.Ok? && Same(executed.s, caughtUp.s) && Certs(executed.out) == Certs(caughtUp.out)
         && var a, b := Steps(p, executed.s, later, choose), Steps(p, caughtUp.s, later, choose);
            (a.Ok? <==> b.Ok?) && (a.Ok? ==> Same(a.s, b.s) && Certs(a.out) == Certs(b.out))
  {
    var a, b := AdvanceEpoch(p, s, choose).s, Step(p, t, CheckpointValidated(true, c), choose);
    InstallMatchesAdvance(p, s, t, params, c, choose, choose);
    AdvanceKeepsSimple(p, s, choose);
    NothingToCatchUp(p, a, b.s, c, choose);
    WaitsOn(p, a, early, c, choose);
    hide AdvanceEpoch;
    var oa := Steps(p, a, early, choose);
    DeliverCheckpoint(p, oa.s, c, choose);
    hide Step, CatchUp, Same, Waiting, Certs, EarlyRun;
    OvertakenInputs(p, a, b.s, early, c, choose);
    ghost var delivered := Step(p, oa.s, SbCheckpoint(Some(c)), choose);
    SameTransitive(delivered.s, CatchUp(p, oa.s, c, choose).s, Steps(p, b.s, early, choose).s);
    var all := early + [SbCheckpoint(Some(c))];
    assert all[..|all| - 1] == early;
    CertsConcat(oa.out, Step(p, oa.s, SbCheckpoint(Some(c)), choose).out);
    CertsOfNothing();
    SameRuns(p, Steps(p, a, all, choose).s, Steps(p, b.s, early, choose).s, later, choose);
  }

  lemma AdvanceKeepsSimple(p: Params, s: State, choose: Chooser)
    requires s.nextNewMembership.Some? && s.policy.Simple? && AdvanceEpoch(p, s, choose).Ok?
    ensures
      var a := AdvanceEpoch(p, s, choose).s;
      && a.policy.Simple? && a.nextNewMembership.None? && a.commitLog == s.commitLog
      && a.nextDeliveredSN == s.nextDeliveredSN && a.epoch.firstSN == s.newEpochSN && a.lastStable == s.lastStable
  {
    hide SegmentsOf, EpochLen, OrdererEvents, SortedKeys.Sorted;
  }

  /** Right after the advance, the checkpoint releases nothing. */
  lemma NothingToCatchUp(p: Params, a: State, b: State, c: StableCheckpoint, choose: Chooser)
    requires Same(a.(lastStable := c), b) && a.nextNewMembership.None? && c.sn == a.epoch.firstSN && a.policy.Simple?
    requires forall sn | sn in a.commitLog :: sn < a.nextDeliveredSN
    ensures CatchUp(p, a, c, choose) == Ok(a.(lastStable := c), [])
  {
    assert Without(a.commitLog, a.nextDeliveredSN, a.nextDeliveredSN) == a.commitLog;
  }

  lemma DeliverCheckpoint(p: Params, s: State, c: StableCheckpoint, choose: Chooser)
    requires Waiting(s, c) && Step(p, s, SbCheckpoint(Some(c)), choose).Ok?
    ensures
      var o, o1 := Step(p, s, SbCheckpoint(Some(c)), choose), CatchUp(p, s, c, choose);
      o1.Ok? && Same(o1.s, o.s) && Certs(o.out) == Certs(o1.out)
  {
    hide ProcessCommitted, Certs;
    var o1 := CatchUp(p, s, c, choose);
    OneOther(StableChkp(c));
    CertsConcat([StableChkp(c)], o1.out);
    NoCerts(Prune(p, c.Epoch()));
    CertsConcat([StableChkp(c)] + o1.out, Prune(p, c.Epoch()));
  }

  // ---------------------------------------------------------------- different choosers

  ghost predicate StaysSimple(o: Outcome) {
    o.Ok? ==> o.s.policy.Simple?
  }

  lemma AdvanceNoChoice(p: Params, s: State, a: Chooser, b: Chooser)
    requires ProperChooser(a) && ProperChooser(b) && s.policy.Simple? && s.nextNewMembership.Some?
    ensures AdvanceEpoch(p, s, a) == AdvanceEpoch(p, s, b) && StaysSimple(AdvanceEpoch(p, s, a))
  {
    hide SegmentsOf, EpochLen, OrdererEvents, SortedKeys.Sorted;
    if s.memberships != [] {
      var policy := LP.Reconfigure(s.policy, (s.memberships[1..] + [s.nextNewMembership.value])[0]);
      assert a(policy) == policy.nodes == b(policy);
    }
  }

  lemma ProcessNoChoice(p: Params, s: State, a: Chooser, b: Chooser)
    requires ProperChooser(a) && ProperChooser(b) && s.policy.Simple?
    ensures ProcessCommitted(p, s, a) == ProcessCommitted(p, s, b) && StaysSimple(ProcessCommitted(p, s, a))
  {
    hide AdvanceEpoch, CertEvents, Readable, Iss.Run, SuspectAll, Without;
    SimpleIgnoresSuspicions(s.policy, s.epoch.nr, Iss.Run(s.commitLog, s.nextDeliveredSN));
    if EpochFinished(Drained(s)) {
      AdvanceNoChoice(p, Drained(s), a, b);
    }
  }

  /** If the input brings a checkpoint, its leader policy is Simple. */
  ghost predicate BringsSimple(i: Input) {
    i.CheckpointValidated? && i.chkp.snapshot.epochData.leaderPolicy.Encoded? ==>
      i.chkp.snapshot.epochData.leaderPolicy.policy.Simple?
  }

  /** The Simple policy leaves no choice of leaders. */
  lemma SimpleLeavesNoChoice(p: Params, s: State, i: Input, a: Chooser, b: Chooser)
    requires ProperChooser(a) && ProperChooser(b) && BringsSimple(i) && (s.policy.Simple? || Installs(s, i))
    ensures Step(p, s, i, a) == Step(p, s, i, b) && StaysSimple(Step(p, s, i, a))
  {
    if !Installs(s, i) {
      SimpleKeepsNoChoice(p, s, i, a, b);
    } else {
      hide StartEpoch, ProcessCommitted;
      var policy := i.chkp.snapshot.epochData.leaderPolicy.policy;
      assert a(policy) == policy.nodes == b(policy);
      StartKeepsPolicy(p, Installed(s, i.chkp, policy), i.chkp.Epoch(), a(policy));
    }
  }

  lemma StartKeepsPolicy(p: Params, s: State, nr: EpochNr, leaders: seq<NodeId>)
    ensures StartEpoch(p, s, nr, leaders).Ok? ==> StartEpoch(p, s, nr, leaders).s.policy == s.policy
  {}

  lemma SimpleKeepsNoChoice(p: Params, s: State, i: Input, a: Chooser, b: Chooser)
    requires ProperChooser(a) && ProperChooser(b) && s.policy.Simple? && !Installs(s, i)
    ensures Step(p, s, i, a) == Step(p, s, i, b) && StaysSimple(Step(p, s, i, a))
  {
    hide ProcessCommitted, AdvanceEpoch, SortedKeys.Sorted, SegmentsOf, EpochLen, OrdererEvents;
    match i
    case SbDeliver(sn, data, aborted, leader) =>
      ProcessNoChoice(p, s.(commitLog := s.commitLog[sn := Entry(data, true, leader)]), a, b);
      ProcessNoChoice(p, s.(commitLog := s.commitLog[sn := Entry(EMPTY, true, leader)]), a, b);
    case SbCheckpoint(common) =>
      if common.Some? {
        ProcessNoChoice(p, s.(lastStable := common.value), a, b);
      }
    case CertVerified(valid, sn, data, leader) =>
      ProcessNoChoice(p, s.(commitLog := s.commitLog[sn := Entry(data, false, leader)]), a, b);
      ProcessNoChoice(p, s.(commitLog := s.commitLog[sn := Entry(EMPTY, true, leader)]), a, b);
    case NewConfig(epochNr, m) =>
      AdvanceNoChoice(p, s.(nextNewMembership := Some(m)), a, b);
    case ProtocolCheckpoint(chkp) =>
    case CheckpointReceived(chkp) =>
    case CheckpointValidated(ok, chkp) =>
  }

  /** Nor does it over any run. */
  lemma {:induction false} SimpleRunsLeaveNoChoice(p: Params, s: State, xs: seq<Input>, a: Chooser, b: Chooser)
    requires ProperChooser(a) && ProperChooser(b) && s.policy.Simple? && forall i | i in xs :: BringsSimple(i)
    ensures Steps(p, s, xs, a) == Steps(p, s, xs, b) && StaysSimple(Steps(p, s, xs, a))
    decreases |xs|
  {
    hide Step, ProperChooser, BringsSimple;
    if xs != [] {
      SimpleRunsLeaveNoChoice(p, s, xs[..|xs| - 1], a, b);
      var o := Steps(p, s, xs[..|xs| - 1], a);
      if o.Ok? {
        SimpleLeavesNoChoice(p, o.s, xs[|xs| - 1], a, b);
      }
    }
  }

  lemma {:induction false} EarlyBringsNothing(p: Params, s: State, xs: seq<Input>, choose: Chooser)
    requires EarlyRun(p, s, xs, choose) && Steps(p, s, xs, choose).Ok?
    ensures forall i | i in xs :: BringsSimple(i)
    decreases |xs|
  {
    hide Step;
    if xs != [] {
      EarlyBringsNothing(p, s, xs[..|xs| - 1], choose);
    }
  }
}
