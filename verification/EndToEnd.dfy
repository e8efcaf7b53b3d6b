/** From the checkpoint protocol to state transfer between different nodes: what an installing node accepts
    is a state that a correct node reached by executing. */
module EndToEnd {
  import opened Quorums
  import opened Types
  import opened Segments
  import opened Iss
  import opened IssRuns
  import opened StateTransfer
  import opened Certificates
  import CS = CheckpointSystem
  import LP = LeaderPolicies
  import SortedKeys
  import Checkpoint

  // ---------------------------------------------------------------- whose node it is does not matter

  /** The same outcome, up to the node's own identifier in the parameters of checkpoint instances. */
  ghost predicate Alike(oa: Outcome, ob: Outcome) {
    (oa.Ok? <==> ob.Ok?) && (oa.Ok? ==> oa.s == ob.s && Certs(oa.out) == Certs(ob.out))
  }

  lemma AdvanceAlike(p: Params, own: NodeId, s: State, choose: Chooser)
    requires s.nextNewMembership.Some?
    ensures Alike(AdvanceEpoch(p, s, choose), AdvanceEpoch(p.(ownId := own), s, choose))
  {
    hide Certs, SegmentsOf, EpochLen, OrdererEvents, LP.Reconfigure;
    var q := p.(ownId := own);
    if AdvanceEpoch(p, s, choose).Ok? {
      var memberships := s.memberships[1..] + [s.nextNewMembership.value];
      var policy := LP.Reconfigure(s.policy, memberships[0]);
      var s1 := s.(memberships := memberships, nextNewMembership := None, policy := policy);
      var o := StartEpoch(p, s1, s.epoch.nr + 1, choose(policy));
      assert o == StartEpoch(q, s1, s.epoch.nr + 1, choose(policy));
      var a := [NewChkpInstance(ChkpParams(p, o.s, s.memberships[0])), SnapshotRequest(s.epoch.nr + 1)];
      var b := [NewChkpInstance(ChkpParams(q, o.s, s.memberships[0])), SnapshotRequest(s.epoch.nr + 1)];
      NoCerts(a);
      NoCerts(b);
      CertsConcat(o.out, a);
      CertsConcat(o.out, b);
    }
  }

  lemma ProcessAlike(p: Params, own: NodeId, s: State, choose: Chooser)
    ensures Alike(ProcessCommitted(p, s, choose), ProcessCommitted(p.(ownId := own), s, choose))
  {
    hide Certs, AdvanceEpoch, Iss.Run, CertEvents, Readable, SuspectAll, Without;
    var q, d := p.(ownId := own), Drained(s);
    if EpochFinished(d) {
      AdvanceAlike(p, own, d, choose);
      if AdvanceEpoch(p, d, choose).Ok? {
        var certs := CertEvents(Iss.Run(s.commitLog, s.nextDeliveredSN), s.nextDeliveredSN);
        CertsConcat(certs, AdvanceEpoch(p, d, choose).out);
        CertsConcat(certs, AdvanceEpoch(q, d, choose).out);
      }
    }
  }

  lemma CheckpointAlike(p: Params, own: NodeId, s: State, common: Option<StableCheckpoint>, choose: Chooser)
    ensures Alike(OnCommonCheckpoint(p, s, common, choose), OnCommonCheckpoint(p.(ownId := own), s, common, choose))
  {
    hide Certs, ProcessCommitted;
    if common.Some? {
      var q, c, s1 := p.(ownId := own), common.value, s.(lastStable := common.value);
      ProcessAlike(p, own, s1, choose);
      if ProcessCommitted(p, s1, choose).Ok? {
        var a, b := ProcessCommitted(p, s1, choose).out, ProcessCommitted(q, s1, choose).out;
        CertsConcat([StableChkp(c)], a);
        CertsConcat([StableChkp(c)], b);
        CertsConcat([StableChkp(c)] + a, Prune(p, c.Epoch()));
        CertsConcat([StableChkp(c)] + b, Prune(q, c.Epoch()));
      }
    }
  }

  lemma StepAlike(p: Params, own: NodeId, s: State, i: Input, choose: Chooser)
    ensures Alike(Step(p, s, i, choose), Step(p.(ownId := own), s, i, choose))
  {
    hide Certs, ProcessCommitted, AdvanceEpoch, OnCommonCheckpoint, LP.Suspect, SortedKeys.Sorted, StartEpoch;
    match i
    case SbDeliver(sn, data, aborted, leader) =>
      var policy := LP.Suspect(s.policy, s.epoch.nr, leader);
      ProcessAlike(p, own, s.(commitLog := s.commitLog[sn := Entry(data, true, leader)]), choose);
      ProcessAlike(p, own, s.(policy := policy, commitLog := s.commitLog[sn := Entry(EMPTY, true, leader)]), choose);
    case SbCheckpoint(common) => CheckpointAlike(p, own, s, common, choose);
    case CertVerified(valid, sn, data, leader) =>
      var policy := LP.Suspect(s.policy, s.epoch.nr, leader);
      ProcessAlike(p, own, s.(commitLog := s.commitLog[sn := Entry(data, false, leader)]), choose);
      ProcessAlike(p, own, s.(policy := policy, commitLog := s.commitLog[sn := Entry(EMPTY, true, leader)]), choose);
    case NewConfig(epochNr, m) =>
      var s1 := s.(nextNewMembership := Some(m));
      AdvanceAlike(p, own, s1, choose);
    case ProtocolCheckpoint(chkp) =>
    case CheckpointReceived(chkp) =>
    case CheckpointValidated(ok, chkp) =>
      if Installs(s, i) {
        var policy := chkp.snapshot.epochData.leaderPolicy.policy;
        StartAlike(p, own, Installed(s, chkp, policy), chkp.Epoch(), choose(policy));
      }
  }

  lemma StartAlike(p: Params, own: NodeId, s: State, nr: EpochNr, leaders: seq<NodeId>)
    ensures StartEpoch(p, s, nr, leaders) == StartEpoch(p.(ownId := own), s, nr, leaders)
  {}

  lemma {:induction false} StepsAlike(p: Params, own: NodeId, s: State, xs: seq<Input>, choose: Chooser)
    ensures Alike(Steps(p, s, xs, choose), Steps(p.(ownId := own), s, xs, choose))
    decreases |xs|
  {
    hide Certs, Step;
    if xs != [] {
      var q, init, last := p.(ownId := own), xs[..|xs| - 1], xs[|xs| - 1];
      StepsAlike(p, own, s, init, choose);
      var a, b := Steps(p, s, init, choose), Steps(q, s, init, choose);
      if a.Ok? {
        StepAlike(p, own, a.s, last, choose);
        if Step(p, a.s, last, choose).Ok? {
          CertsConcat(a.out, Step(p, a.s, last, choose).out);
          CertsConcat(b.out, Step(q, a.s, last, choose).out);
        }
      }
    }
  }

  // ---------------------------------------------------------------- certified checkpoints

  /** Hashing does not confuse this snapshot with another one. */
  ghost predicate NoCollision(hash: StateSnapshot -> Digest, snapshot: StateSnapshot) {
    forall other :: hash(other) == hash(snapshot) ==> other == snapshot
  }

  /** Correct nodes announce not only the same hash but the same snapshot. */
  lemma AnnouncedSnapshotsAgree(
      c: CS.Config, steps: seq<CS.Step>, a: (NodeId, StableCheckpoint), b: (NodeId, StableCheckpoint))
    requires c.Valid() && a in CS.Run(c, steps).announcements && b in CS.Run(c, steps).announcements
    requires NoCollision(c.hash, a.1.snapshot)
    ensures a.1.sn == b.1.sn && a.1.snapshot == b.1.snapshot
  {
    hide SetWeight;
    CS.Agreement(c, steps, a, b);
  }

  /** A checkpoint whose certificate passes the check was made by the instance of a correct node. */
  lemma CertifiedWasMade(c: CS.Config, steps: seq<CS.Step>, chkp: StableCheckpoint) returns (n: NodeId)
    requires c.Valid() && Certificates.VerifyCert(c.hash, chkp, c.membership) == Accepted
    requires forall k | k in chkp.cert :: CS.Obtainable(c, CS.Run(c, steps), chkp.cert[k])
    requires NoCollision(c.hash, chkp.snapshot)
    ensures n in c.params && MadeBy(c.params[n], chkp)
  {
    hide SetWeight;
    n := CS.VerifiedCertificatesAreBacked(c, steps, chkp);
    var s := CS.Run(c, steps);
    assert CS.NodeInv(c, s, n);
  }

  /** A node that has finished an epoch, and the way its leader policy breaks ties. */
  datatype Executor = Executor(s: State, choose: Chooser) {
    ghost function Advanced(p: Params): Outcome {
      if s.nextNewMembership.None? then Error else AdvanceEpoch(p, s, choose)
    }

    /** It created a checkpoint instance with these parameters when it advanced. */
    ghost predicate Executed(p: Params, params: Checkpoint.Params) {
      && Bounded(s) && EpochFinished(s) && ProperChooser(choose)
      && Advanced(p).Ok? && NewChkpInstance(params) in Advanced(p).out
    }
  }

  /** What the conservative validator accepts and ISS installs is, up to the checkpoint itself, the state that some
      correct node reached when it advanced into that epoch, up to the choice of leaders if they use the blacklist
      policy, and entirely if they use the simple one. Every node breaks ties in its own way. */
  lemma AcceptedCheckpointWasExecuted(
      v: ValidatorParams, chkp: StableCheckpoint, epochNr: EpochNr, ms: seq<Membership>,
      c: CS.Config, steps: seq<CS.Step>, executors: map<NodeId, Executor>, p: Params, t: State, choose: Chooser)
    returns (n: NodeId)
    requires c.Valid() && v.hash == c.hash && ConservativeVerify(v, chkp, epochNr, ms) == Accepted
    requires 0 < MembershipOffset(chkp, epochNr) < |ms| && ms[MembershipOffset(chkp, epochNr)] == c.membership
    requires forall k | k in chkp.cert :: CS.Obtainable(c, CS.Run(c, steps), chkp.cert[k])
    requires NoCollision(c.hash, chkp.snapshot)
    requires forall k | k in c.params :: k in executors && executors[k].Executed(p.(ownId := k), c.params[k])
    requires FarEnoughAhead(t, chkp) && ProperChooser(choose)
    ensures n in c.params && n in executors && executors[n].Executed(p.(ownId := n), c.params[n])
    ensures
      var reached := executors[n].Advanced(p.(ownId := n)).s.(lastStable := chkp);
      var installed := Step(p, t, CheckpointValidated(true, chkp), choose);
      && reached.memberships != []
      && (executors[n].s.policy.Simple? || TotalWeight(reached.memberships[0]) > 0 ==> installed.Ok?)
      && (installed.Ok? ==> SameUpToLeaders(reached, installed.s))
      && (executors[n].s.policy.Simple? ==> Same(reached, installed.s))
  {
    hide TotalWeight, ProperChooser, Same, SameUpToLeaders, Bounded, EpochFinished;
    assert Certificates.VerifyCert(c.hash, chkp, c.membership) == Accepted;
    n := CertifiedWasMade(c, steps, chkp);
    assert executors[n].Executed(p.(ownId := n), c.params[n]);
    InstallMatchesAdvance(p.(ownId := n), executors[n].s, t, c.params[n], chkp, executors[n].choose, choose);
    StepAlike(p, n, t, CheckpointValidated(true, chkp), choose);
  }

  /** State transfer matches execution, under the Simple leader policy. One node finishes the previous epoch,
      advances, handles the inputs `early`, and then delivers the checkpoint c that a checkpoint instance for the
      new epoch made. Another node, with its own way of choosing leaders, installs c from whatever state it is in
      and handles the same inputs afterwards. They end up equivalent and have delivered the same certificates, and
      so for all further inputs that bring no other leader policy. */
  lemma StateTransferMatchesExecution(
      p: Params, own: NodeId, x: Executor, t: State, params: Checkpoint.Params, c: StableCheckpoint,
      early: seq<Input>, later: seq<Input>, choose: Chooser)
    requires x.Executed(p, params) && x.s.policy.Simple? && x.s.lastStable.sn < x.s.newEpochSN
    requires MadeBy(params, c) && FarEnoughAhead(t, c) && ProperChooser(choose)
    requires EarlyRun(p, x.Advanced(p).s, early, x.choose)
    requires forall i | i in later :: Sensible(i) && BringsSimple(i)
    requires Steps(p, x.Advanced(p).s, early, x.choose).Ok?
    requires Step(p, Steps(p, x.Advanced(p).s, early, x.choose).s, SbCheckpoint(Some(c)), x.choose).Ok?
    ensures
      var q := p.(ownId := own);
      var executed := Steps(p, x.Advanced(p).s, early + [SbCheckpoint(Some(c))], x.choose);
      var installed := Step(q, t, CheckpointValidated(true, c), choose);
      && executed.Ok? && installed.Ok?
      && var caughtUp := Steps(q, installed.s, early, choose);
         && caughtUp.Ok? && Same(executed.s, caughtUp.s) && Certs(executed.out) == Certs(caughtUp.out)
         && var a, b := Steps(p, executed.s, later, x.choose), Steps(q, caughtUp.s, later, choose);
            (a.Ok? <==> b.Ok?) && (a.Ok? ==> Same(a.s, b.s) && Certs(a.out) == Certs(b.out))
  {
    var install := CheckpointValidated(true, c);
    MadeIsSimple(p, x, params, c);
    EarlyBringsNothing(p, x.Advanced(p).s, early, x.choose);
    hide Certs, Step, EarlyRun, Same, Bounded, EpochFinished, AdvanceEpoch, ProperChooser, BringsSimple;
    TransferOnOneNode(p, x.s, t, params, c, early, later, x.choose);
    StepAlike(p, own, t, install, x.choose);
    var installed := Step(p, t, install, x.choose).s;
    var q, caughtUp := p.(ownId := own), Steps(p, installed, early, x.choose);
    StepsAlike(p, own, installed, early, x.choose);
    StepsAlike(p, own, caughtUp.s, later, x.choose);
    SimpleLeavesNoChoice(q, t, install, x.choose, choose);
    SimpleRunsLeaveNoChoice(q, installed, early, x.choose, choose);
    SimpleRunsLeaveNoChoice(q, caughtUp.s, later, x.choose, choose);
  }

  /** A checkpoint of a node with the Simple policy carries that policy. */
  lemma MadeIsSimple(p: Params, x: Executor, params: Checkpoint.Params, c: StableCheckpoint)
    requires x.Executed(p, params) && x.s.policy.Simple? && MadeBy(params, c)
    ensures
      var i := CheckpointValidated(true, c);
      BringsSimple(i) && forall t: State | FarEnoughAhead(t, c) :: Installs(t, i)
  {
    hide SegmentsOf, EpochLen, OrdererEvents, SortedKeys.Sorted, ProperChooser, Bounded;
    AdvanceCreates(p, x.s, x.choose, params);
  }
}
