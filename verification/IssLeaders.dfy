/** Without negative weights the leaders of every epoch are a strong quorum, over whole runs of ISS. */
module IssLeaders {
  import opened Lists
  import opened Quorums
  import opened Types
  import opened Segments
  import opened Iss
  import opened IssRuns
  import opened IssTheorems
  import opened SortedKeys
  import Checkpoint
  import StateTransfer
  import LP = LeaderPolicies

  ghost predicate IsChoice(m: Membership, suspected: map<NodeId, EpochNr>, leaders: seq<NodeId>) {
    exists ids, min :: LP.Chosen(m, suspected, ids, min, leaders)
  }

  /** What the Leaders methods of the two policies compute. */
  ghost predicate LeadersChooser(choose: Chooser) {
    && (forall nodes :: choose(Simple(nodes)) == nodes)
    && (forall m: Membership, suspected: map<NodeId, EpochNr> | suspected.Keys <= m.Keys && TotalWeight(m) > 0 ::
          IsChoice(m, suspected, choose(Blacklist(m, suspected))))
  }

  /** The policy is about this membership, as it is after every reconfiguration. */
  ghost predicate Fitting(policy: LeaderPolicy, m: Membership) {
    match policy
    case Simple(nodes) => Elements(nodes) == m.Keys
    case Blacklist(m', suspected) => m' == m && suspected.Keys <= m.Keys
  }

  lemma ReconfiguredFits(policy: LeaderPolicy, m: Membership)
    ensures Fitting(LP.Reconfigure(policy, m), m)
  {}

  lemma SuspectFits(policy: LeaderPolicy, m: Membership, nr: EpochNr, node: NodeId)
    requires Fitting(policy, m)
    ensures Fitting(LP.Suspect(policy, nr, node), m)
  {}

  lemma {:induction false} SuspectAllFits(policy: LeaderPolicy, m: Membership, nr: EpochNr, entries: seq<Entry>)
    requires Fitting(policy, m)
    ensures Fitting(SuspectAll(policy, nr, entries), m)
    decreases |entries|
  {
    hide LP.Suspect, Fitting;
    if entries != [] {
      SuspectFits(policy, m, nr, entries[0].suspect);
      var policy1 := if entries[0].aborted then LP.Suspect(policy, nr, entries[0].suspect) else policy;
      SuspectAllFits(policy1, m, nr, entries[1..]);
    }
  }

  ghost function LeadersIn(segments: seq<Segment>): seq<NodeId> {
    seq(|segments|, i requires 0 <= i < |segments| => segments[i].leader)
  }

  /** Without negative weights, the leaders of the epoch are a strong quorum of its membership. */
  ghost predicate WellLed(epoch: EpochInfo) {
    Valid(epoch.membership) && NonNegative(epoch.membership) ==>
      && Elements(LeadersIn(epoch.segments)) <= epoch.membership.Keys
      && HaveStrongQuorum(epoch.membership, Elements(LeadersIn(epoch.segments)))
  }

  /** The leaders of a policy about a membership are a strong quorum of it; those of the blacklist policy besides all
      members never suspected and none suspected more recently than a member left out. */
  lemma ChoiceIsQuorum(policy: LeaderPolicy, m: Membership, choose: Chooser)
    requires LeadersChooser(choose) && Fitting(policy, m) && Valid(m) && NonNegative(m)
    ensures Elements(choose(policy)) <= m.Keys && HaveStrongQuorum(m, Elements(choose(policy)))
    ensures policy.Blacklist? ==> LP.ProperLeaders(m, policy.suspected, choose(policy))
  {
    hide SetWeight, LP.Chosen;
    LP.PositiveTotal(m);
    if policy.Blacklist? {
      assert IsChoice(m, policy.suspected, choose(policy));
      var ids, min :| LP.Chosen(m, policy.suspected, ids, min, choose(policy));
      LP.ChosenAreProper(m, policy.suspected, ids, min, choose(policy));
    } else {
      QuorumBounds(m);
    }
  }

  lemma StartIsWellLed(p: Params, s: State, nr: EpochNr, choose: Chooser)
    requires LeadersChooser(choose) && s.memberships != [] && Fitting(s.policy, s.memberships[0])
    requires StartEpoch(p, s, nr, choose(s.policy)).Ok?
    ensures
      var o := StartEpoch(p, s, nr, choose(s.policy));
      && WellLed(o.s.epoch) && LeadersIn(o.s.epoch.segments) == choose(s.policy)
      && o.s == s.(epoch := o.s.epoch, newEpochSN := o.s.newEpochSN, epochs := o.s.epochs)
      && o.s.epoch.membership == s.memberships[0]
  {
    hide FreeProposals, EpochLen, LeadersChooser, Valid, Fitting, NonNegative, SetWeight;
    var o := StartEpoch(p, s, nr, choose(s.policy));
    assert LeadersIn(o.s.epoch.segments) == choose(s.policy);
    if Valid(s.memberships[0]) && NonNegative(s.memberships[0]) {
      ChoiceIsQuorum(s.policy, s.memberships[0], choose);
    }
  }

  ghost predicate Led(s: State) {
    && s.memberships != [] && s.epoch.membership == s.memberships[0] && Fitting(s.policy, s.memberships[0])
    && WellLed(s.epoch)
  }

  ghost predicate LedAfter(o: Outcome) {
    o.Ok? ==> Led(o.s)
  }

  lemma AdvanceIsLed(p: Params, s: State, choose: Chooser)
    requires LeadersChooser(choose) && s.nextNewMembership.Some?
    ensures LedAfter(AdvanceEpoch(p, s, choose))
  {
    hide StartEpoch, LP.Reconfigure, LeadersChooser, Fitting, WellLed;
    if AdvanceEpoch(p, s, choose).Ok? {
      var memberships := s.memberships[1..] + [s.nextNewMembership.value];
      var policy := LP.Reconfigure(s.policy, memberships[0]);
      ReconfiguredFits(s.policy, memberships[0]);
      var s1 := s.(memberships := memberships, nextNewMembership := None, policy := policy);
      StartIsWellLed(p, s1, s.epoch.nr + 1, choose);
    }
  }

  lemma ProcessIsLed(p: Params, s: State, choose: Chooser)
    requires LeadersChooser(choose) && Led(s)
    ensures LedAfter(ProcessCommitted(p, s, choose))
  {
    hide AdvanceEpoch, CertEvents, Readable, Iss.Run, SuspectAll, Without, LeadersChooser, Fitting, WellLed;
    SuspectAllFits(s.policy, s.memberships[0], s.epoch.nr, Iss.Run(s.commitLog, s.nextDeliveredSN));
    if EpochFinished(Drained(s)) {
      AdvanceIsLed(p, Drained(s), choose);
    }
  }

  /** A checkpoint's leader policy is about its first membership. */
  ghost predicate Fits(c: StableCheckpoint) {
    && c.Memberships() != []
    && (c.snapshot.epochData.leaderPolicy.Encoded? ==>
          Fitting(c.snapshot.epochData.leaderPolicy.policy, c.Memberships()[0]))
  }

  lemma StepIsLed(p: Params, s: State, i: Input, choose: Chooser)
    requires LeadersChooser(choose) && Led(s) && (i.CheckpointValidated? && i.ok ==> Fits(i.chkp))
    ensures LedAfter(Step(p, s, i, choose))
  {
    hide ProcessCommitted, AdvanceEpoch, StartEpoch, LP.Suspect, Sorted, LeadersChooser, Fitting, WellLed;
    match i
    case SbDeliver(sn, data, aborted, leader) =>
      SuspectFits(s.policy, s.memberships[0], s.epoch.nr, leader);
      var policy := LP.Suspect(s.policy, s.epoch.nr, leader);
      ProcessIsLed(p, s.(commitLog := s.commitLog[sn := Entry(data, true, leader)]), choose);
      ProcessIsLed(p, s.(policy := policy, commitLog := s.commitLog[sn := Entry(EMPTY, true, leader)]), choose);
    case CertVerified(valid, sn, data, leader) =>
      SuspectFits(s.policy, s.memberships[0], s.epoch.nr, leader);
      var policy := LP.Suspect(s.policy, s.epoch.nr, leader);
      ProcessIsLed(p, s.(commitLog := s.commitLog[sn := Entry(data, false, leader)]), choose);
      ProcessIsLed(p, s.(policy := policy, commitLog := s.commitLog[sn := Entry(EMPTY, true, leader)]), choose);
    case SbCheckpoint(common) =>
      if common.Some? {
        ProcessIsLed(p, s.(lastStable := common.value), choose);
      }
    case NewConfig(epochNr, m) =>
      AdvanceIsLed(p, s.(nextNewMembership := Some(m)), choose);
    case CheckpointValidated(ok, chkp) =>
      if Installs(s, i) && Step(p, s, i, choose).Ok? {
        StartIsWellLed(p, Installed(s, chkp, chkp.snapshot.epochData.leaderPolicy.policy), chkp.Epoch(), choose);
      }
    case _ =>
  }

  /** Checkpoints whose leader policy is about their first membership, and leaders as the policies choose them. */
  ghost predicate FittingRun(start: StableCheckpoint, choose: Chooser, moves: seq<Move>) {
    && Fits(start) && LeadersChooser(choose)
    && forall k | 0 <= k < |moves| ::
         LeadersChooser(moves[k].choose) &&
         (moves[k].input.CheckpointValidated? && moves[k].input.ok ==> Fits(moves[k].input.chkp))
  }

  /** In every such run the leaders of every epoch whose membership has no negative weight are a strong quorum of that
      membership, and the policy only suspects its members. */
  lemma {:induction false} EpochsAreWellLed(
      p: Params, start: StableCheckpoint, choose: Chooser, moves: seq<Move>, h: History)
    requires Plays(p, start, choose, moves, h) && FittingRun(start, choose, moves)
    ensures Led(h.s)
    decreases |moves|
  {
    hide Step, StartEpoch, Led, LeadersChooser, Fitting;
    if moves == [] {
      BeginsLed(p, start, choose);
    } else {
      var init, last := moves[..|moves| - 1], moves[|moves| - 1];
      var h0 := Play(p, start, choose, init).value;
      EpochsAreWellLed(p, start, choose, init, h0);
      StepIsLed(p, h0.s, last.input, last.choose);
    }
  }

  lemma BeginsLed(p: Params, start: StableCheckpoint, choose: Chooser)
    requires Fits(start) && LeadersChooser(choose) && Begin(p, start, choose).Some?
    ensures Led(Begin(p, start, choose).value.s)
  {
    hide StartEpoch, LeadersChooser, Fitting, WellLed;
    StartIsWellLed(p, New(start, start.snapshot.epochData.leaderPolicy.policy), start.Epoch(), choose);
  }

  /** The checkpoints that executing nodes make are of this kind. */
  lemma MadeCheckpointsFit(p: Params, s: State, choose: Chooser, params: Checkpoint.Params, c: StableCheckpoint)
    requires s.nextNewMembership.Some? && AdvanceEpoch(p, s, choose).Ok?
    requires NewChkpInstance(params) in AdvanceEpoch(p, s, choose).out && StateTransfer.MadeBy(params, c)
    ensures Fits(c)
  {
    hide AdvanceEpoch, LP.Reconfigure, Fitting;
    StateTransfer.AdvanceCreates(p, s, choose, params);
    ReconfiguredFits(s.policy, AdvanceEpoch(p, s, choose).s.memberships[0]);
  }
}
