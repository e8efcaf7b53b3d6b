/** The ISS protocol module as it runs (pkg/iss/iss.go): fields updated in place, events appended to the
    module's output. Every method is proved against the function of the same purpose in module Iss. */
module IssModule {
  import opened Quorums
  import opened Types
  import opened Segments
  import opened Iss
  import opened Certificates
  import LP = LeaderPolicies
  import SortedKeys
  import Checkpoint

  ghost predicate Did(o: Outcome, ok: bool, s: State, out0: seq<Event>, out: seq<Event>) {
    (ok <==> o.Ok?) && (ok ==> s == o.s && out == out0 + o.out)
  }

  class Module {
    const p: Params
    const leadersOf: Chooser

    var epoch: EpochInfo
    var memberships: seq<Membership>
    var nextNewMembership: Option<Membership>
    var commitLog: map<SeqNr, Entry>
    var nextDeliveredSN: SeqNr
    var newEpochSN: SeqNr
    var lastStable: StableCheckpoint
    var lastPendingSN: SeqNr
    var policy: LeaderPolicy
    var epochs: set<EpochNr>
    var out: seq<Event>

    ghost function St(): State
      reads this
    {
      State(epoch, memberships, nextNewMembership, commitLog, nextDeliveredSN, newEpochSN, lastStable, lastPendingSN,
            policy, epochs)
    }

    constructor (p: Params, leadersOf: Chooser, chkp: StableCheckpoint, policy: LeaderPolicy)
      ensures this.p == p && this.leadersOf == leadersOf && St() == New(chkp, policy) && out == []
    {
      this.p, this.leadersOf := p, leadersOf;
      epoch := EpochInfo(chkp.Epoch(), chkp.sn, map[], []);
      memberships, nextNewMembership, commitLog := chkp.Memberships(), None, map[];
      nextDeliveredSN, newEpochSN, lastStable, lastPendingSN := chkp.sn, chkp.sn, chkp, 0;
      this.policy, epochs, out := policy, {}, [];
    }

    method UponInit() returns (ok: bool)
      requires St() == New(lastStable, policy) && out == []
      modifies this
      ensures Did(Init(p, old(lastStable), old(policy), leadersOf), ok, St(), [], out)
    {
      out := out + [RestoreState(lastStable)];
      ok := RunStartEpoch(lastStable.Epoch());
    }

    method RunStartEpoch(nr: EpochNr) returns (ok: bool)
      modifies this
      ensures Did(StartEpoch(p, old(St()), nr, leadersOf(old(policy))), ok, St(), old(out), out)
    {
      hide EpochLen, OrdererEvents, SegmentsOf;
      if memberships == [] {
        return false;
      }
      epoch := EpochInfo(nr, newEpochSN, memberships[0], []);
      out := out + [NewEpoch(nr)];
      epochs := epochs + {nr};
      out := out + [NewAvailability(nr, memberships[0])];
      out := out + [ComputeCert(nr)];
      assert out == old(out) + [NewEpoch(nr), NewAvailability(nr, memberships[0]), ComputeCert(nr)];
      ok := InitOrderers();
    }

    method InitOrderers() returns (ok: bool)
      requires epoch.segments == []
      modifies this`epoch, this`newEpochSN, this`out
      ensures
        var leaders := leadersOf(policy);
        var segments := SegmentsOf(leaders, old(epoch).membership, nextDeliveredSN, p.segmentLength);
        && (ok <==> forall l | l in leaders :: l in old(epoch).membership)
        && (ok ==>
              && epoch == old(epoch).(segments := segments)
              && newEpochSN == old(newEpochSN) + EpochLen(segments)
              && out == old(out) + OrdererEvents(old(epoch).nr, segments))
    {
      hide EpochLen, OrdererEvents;
      var leaders := leadersOf(policy);
      ghost var segments := SegmentsOf(leaders, epoch.membership, nextDeliveredSN, p.segmentLength);
      SomeOrderers(segments, epoch.nr, 0);
      for i := 0 to |leaders|
        invariant epoch == old(epoch).(segments := segments[..i])
        invariant newEpochSN == old(newEpochSN) + EpochLen(segments[..i])
        invariant out == old(out) + OrdererEvents(old(epoch).nr, segments[..i])
        invariant forall j | 0 <= j < i :: leaders[j] in old(epoch).membership
      {
        var proposals := MakeFreeProposals(nextDeliveredSN + i, |leaders|, p.segmentLength);
        if leaders[i] !in epoch.membership {
          return false;
        }
        var segment := Segment(leaders[i], epoch.membership, proposals);
        assert segment == segments[i];
        SomeOrderers(segments, epoch.nr, i);
        newEpochSN := newEpochSN + |segment.seqNrs|;
        out := out + [NewOrderer(epoch.nr, i, segment)];
        epoch := epoch.(segments := epoch.segments + [segment]);
      }
      SomeOrderers(segments, epoch.nr, |segments|);
      ok := true;
    }

    method RunAdvanceEpoch() returns (ok: bool)
      requires nextNewMembership.Some?
      modifies this
      ensures Did(AdvanceEpoch(p, old(St()), leadersOf), ok, St(), old(out), out)
    {
      hide SegmentsOf, OrdererEvents, EpochLen, LP.Reconfigure;
      if memberships == [] {
        return false;
      }
      var oldMembership := memberships[0];
      memberships := memberships[1..] + [nextNewMembership.value];
      nextNewMembership := None;
      policy := LP.Reconfigure(policy, memberships[0]);
      ok := RunStartEpoch(epoch.nr + 1);
      if ok {
        var length := ComputeEpochLen(epoch.segments);
        var config := EpochConfig(epoch.nr, epoch.firstSN, length, memberships);
        out := out + [NewChkpInstance(Checkpoint.Params(p.ownId, oldMembership, config, Encoded(policy)))];
        out := out + [SnapshotRequest(epoch.nr)];
      }
    }

    method DeliverNext() returns (ok: bool)
      requires nextDeliveredSN in commitLog
      modifies this`commitLog, this`nextDeliveredSN, this`policy, this`out
      ensures ok <==> CanDeliver(old(commitLog)[old(nextDeliveredSN)])
      ensures ok ==> St() == Delivered(old(St())) && out == old(out) + [FirstCert(old(St()))]
    {
      hide LP.Suspect;
      var e := commitLog[nextDeliveredSN];
      if e.aborted {
        policy := LP.Suspect(policy, epoch.nr, e.suspect);
      } else if e.data.Unreadable? {
        return false;
      }
      out := out + [CertEvent(e, nextDeliveredSN)];
      commitLog := commitLog - {nextDeliveredSN};
      nextDeliveredSN := nextDeliveredSN + 1;
      ok := true;
    }

    /** The delivery loop: everything contiguous from the next sequence number on. */
    method DeliverCommitted() returns (ok: bool)
      modifies this`commitLog, this`nextDeliveredSN, this`policy, this`out
      ensures ok <==> Readable(Run(old(commitLog), old(nextDeliveredSN)))
      ensures ok ==> St() == Drained(old(St())) && out == old(out) + AllCerts(old(St()))
    {
      hide Delivering, FirstCert, CanDeliver, Drained, AllCerts, Readable;
      StartDelivering(St(), out);
      while nextDeliveredSN in commitLog
        invariant Delivering(old(St()), St(), old(out), out)
        decreases |commitLog|
      {
        KeepDelivering(old(St()), St(), old(out), out);
        ok := DeliverNext();
        if !ok {
          return;
        }
      }
      DoneDelivering(old(St()), St(), old(out), out);
      ok := true;
    }

    method RunProcessCommitted() returns (ok: bool)
      modifies this
      ensures Did(ProcessCommitted(p, old(St()), leadersOf), ok, St(), old(out), out)
    {
      if lastStable.sn != epoch.firstSN {
        return true;
      }
      ok := DeliverCommitted();
      if ok && nextDeliveredSN == newEpochSN && lastStable.sn == epoch.firstSN && nextNewMembership.Some? {
        ok := RunAdvanceEpoch();
      }
    }

    method RunDeliverCert(sn: SeqNr, data: SbData, aborted: bool, leader: NodeId) returns (ok: bool)
      modifies this
      ensures Did(Insert(p, old(St()), sn, Entry(data, aborted, leader), leadersOf), ok, St(), old(out), out)
    {
      commitLog := commitLog[sn := Entry(data, aborted, leader)];
      ok := RunProcessCommitted();
    }

    method UponSbDeliver(sn: SeqNr, data: SbData, aborted: bool, leader: NodeId) returns (ok: bool)
      modifies this
      ensures Did(Step(p, old(St()), SbDeliver(sn, data, aborted, leader), leadersOf), ok, St(), old(out), out)
    {
      if aborted {
        ok := RunDeliverCert(sn, data, true, leader);
      } else if data.Unreadable? {
        policy := LP.Suspect(policy, epoch.nr, leader);
        ok := RunDeliverCert(sn, EMPTY, true, leader);
      } else {
        out := out + [VerifyCert(epoch.nr, sn, data, leader)];
        ok := true;
      }
    }

    method UponCertVerified(valid: bool, sn: SeqNr, data: SbData, leader: NodeId) returns (ok: bool)
      modifies this
      ensures Did(Step(p, old(St()), CertVerified(valid, sn, data, leader), leadersOf), ok, St(), old(out), out)
    {
      if valid {
        ok := RunDeliverCert(sn, data, false, leader);
      } else {
        policy := LP.Suspect(policy, epoch.nr, leader);
        ok := RunDeliverCert(sn, EMPTY, true, leader);
      }
    }

    method UponCommonCheckpoint(common: Option<StableCheckpoint>) returns (ok: bool)
      modifies this
      ensures Did(Step(p, old(St()), SbCheckpoint(common), leadersOf), ok, St(), old(out), out)
    {
      hide ProcessCommitted, PruneEpochs, Prune;
      if common.None? {
        return false;
      }
      var chkp := common.value;
      if chkp.sn <= lastStable.sn {
        return true;
      }
      lastStable := chkp;
      out := out + [StableChkp(chkp)];
      ok := RunProcessCommitted();
      if ok {
        RunPrune(chkp.Epoch());
      }
    }

    /** Drops the state of old epochs, here and in the other modules. */
    method RunPrune(chkpEpoch: EpochNr)
      modifies this`epochs, this`out
      ensures St() == PruneEpochs(p, old(St()), chkpEpoch) && out == old(out) + Prune(p, chkpEpoch)
    {
      if chkpEpoch <= p.retainedEpochs {
        return;
      }
      var index := chkpEpoch - p.retainedEpochs;
      var drops := [GarbageCollect(Timer, index), GarbageCollect(CheckpointInstances, index),
                    GarbageCollect(Availability, index), GarbageCollect(Ordering, index),
                    GarbageCollect(ChkpPreprepareValidators, index), GarbageCollect(BatchDb, index)];
      out := out + drops;
      var rest := epochs;
      while rest != {}
        invariant out == old(out) + drops
        invariant rest <= old(epochs) && epochs == set e | e in old(epochs) && (e in rest || e >= index)
      {
        var e :| e in rest;
        rest := rest - {e};
        if e < index {
          epochs := epochs - {e};
        }
      }
      out := out + [PushPeriodically(index)];
      assert drops + [PushPeriodically(index)] == Prune(p, chkpEpoch);
    }

    method UponNewConfig(epochNr: EpochNr, m: Membership) returns (ok: bool)
      modifies this
      ensures Did(Step(p, old(St()), NewConfig(epochNr, m), leadersOf), ok, St(), old(out), out)
    {
      if epochNr < epoch.nr {
        return true;
      }
      if nextNewMembership.Some? {
        return false;
      }
      nextNewMembership := Some(m);
      ok := true;
      if nextDeliveredSN == newEpochSN && lastStable.sn == epoch.firstSN {
        ok := RunAdvanceEpoch();
      }
    }

    method UponStableCheckpoint(chkp: StableCheckpoint) returns (ok: bool)
      modifies this`lastPendingSN, this`out
      ensures Did(Step(p, old(St()), ProtocolCheckpoint(chkp), leadersOf), ok, St(), old(out), out)
    {
      if chkp.sn <= lastPendingSN {
        return true;
      }
      var nodes := SortedKeys.Sorted(chkp.PreviousMembership().Keys);
      if nodes == [] {
        return false;
      }
      lastPendingSN := chkp.sn;
      out := out + [NewPreprepareValidator(chkp.Epoch(), chkp.PreviousMembership())];
      out := out + [NewChkpOrderer(chkp.Epoch(), nodes[chkp.Epoch() % |nodes|], chkp)];
      ok := true;
    }

    method UponStableCheckpointReceived(chkp: StableCheckpoint) returns (ok: bool)
      modifies this`out
      ensures Did(Step(p, old(St()), CheckpointReceived(chkp), leadersOf), ok, St(), old(out), out)
    {
      if chkp.Epoch() - 1 - epoch.nr > 0 {
        out := out + [ValidateCheckpoint(chkp, epoch.nr, memberships)];
      }
      ok := true;
    }

    method UponCheckpointValidated(valid: bool, chkp: StableCheckpoint) returns (ok: bool)
      modifies this
      ensures Did(Step(p, old(St()), CheckpointValidated(valid, chkp), leadersOf), ok, St(), old(out), out)
    {
      hide Install;
      if !valid || chkp.Epoch() - 1 - epoch.nr <= 0 || chkp.snapshot.epochData.leaderPolicy.Malformed? {
        return true;
      }
      ok := RunInstall(chkp, chkp.snapshot.epochData.leaderPolicy.policy);
    }

    /** The part of the installation that replaces the module's own state and the application's. */
    method ReplaceState(chkp: StableCheckpoint, newPolicy: LeaderPolicy)
      modifies this
      ensures St() == Installed(old(St()), chkp, newPolicy) && out == old(out) + [RestoreState(chkp)]
    {
      policy := newPolicy;
      epochs := {};
      commitLog := map[];
      nextDeliveredSN := chkp.sn;
      newEpochSN := nextDeliveredSN;
      memberships := chkp.Memberships();
      nextNewMembership := None;
      lastStable := chkp;
      out := out + [RestoreState(chkp)];
    }

    method RunInstall(chkp: StableCheckpoint, newPolicy: LeaderPolicy) returns (ok: bool)
      modifies this
      ensures Did(Install(p, old(St()), chkp, newPolicy, leadersOf), ok, St(), old(out), out)
    {
      hide StartEpoch, PruneAll;
      ReplaceState(chkp, newPolicy);
      ok := RunStartEpoch(chkp.Epoch());
      if ok {
        out := out + [StableChkp(chkp)];
        out := out + PruneAll(chkp.Epoch());
      }
    }
  }

  /** The configuration of an instance, as far as its creation or the protocol looks at it. */
  datatype Settings = Settings(
    initial: Membership, configOffset: int, segmentLength: int, epochLength: int, maxProposeDelay: int,
    msgBufCapacity: int, retainedEpochs: int, catchUpTimerPeriod: int)

  /** The checks of the configuration. An epoch length passes them, but the protocol does not use it. */
  ghost predicate Acceptable(c: Settings) {
    && Valid(c.initial) && c.configOffset >= 1
    && c.segmentLength >= 0 && c.epochLength >= 0 && (c.epochLength == 0 <==> c.segmentLength != 0)
    && c.maxProposeDelay >= 0 && c.msgBufCapacity >= 0 && c.catchUpTimerPeriod > 0
  }

  method CheckParams(c: Settings) returns (ok: bool)
    ensures ok <==> Acceptable(c)
  {
    hide Valid;
    ok := RunValid(c.initial);
    if !ok || c.configOffset < 1 || c.segmentLength < 0 || c.epochLength < 0 {
      return false;
    }
    if (c.epochLength != 0 && c.segmentLength != 0) || (c.epochLength == 0 && c.segmentLength == 0) {
      return false;
    }
    ok := !(c.maxProposeDelay < 0 || c.msgBufCapacity < 0 || c.catchUpTimerPeriod <= 0);
  }

  /** Creation of an instance: the configuration, the leader policy and the certificate of the starting checkpoint must
      be in order. An error return or a panic gives no instance. */
  method Create(
      ownId: NodeId, c: Settings, hash: StateSnapshot -> Digest, leadersOf: Chooser, chkp: StableCheckpoint)
    returns (m: Module?)
    ensures m != null <==>
      && Acceptable(c) && chkp.snapshot.epochData.leaderPolicy.Encoded?
      && Verify(hash, chkp, c.configOffset, c.initial) == Accepted
    ensures m != null ==>
      && fresh(m) && m.p == Params(ownId, c.configOffset, c.segmentLength, c.retainedEpochs)
      && m.leadersOf == leadersOf && m.out == []
      && m.St() == New(chkp, chkp.snapshot.epochData.leaderPolicy.policy)
      && |m.memberships| == c.configOffset + 1
  {
    hide Valid;
    var ok := CheckParams(c);
    if !ok || chkp.snapshot.epochData.leaderPolicy.Malformed? {
      return null;
    }
    var verdict := RunVerify(hash, chkp, c.configOffset, c.initial);
    if verdict != Accepted {
      return null;
    }
    var p := Params(ownId, c.configOffset, c.segmentLength, c.retainedEpochs);
    m := new Module(p, leadersOf, chkp, chkp.snapshot.epochData.leaderPolicy.policy);
  }

  lemma SomeOrderers(segments: seq<Segment>, nr: EpochNr, i: nat)
    requires i <= |segments|
    ensures i == 0 ==> EpochLen(segments[..i]) == 0 && OrdererEvents(nr, segments[..i]) == []
    ensures i == |segments| ==> segments[..i] == segments
    ensures i < |segments| ==>
      && segments[..i + 1] == segments[..i] + [segments[i]]
      && EpochLen(segments[..i + 1]) == EpochLen(segments[..i]) + |segments[i].seqNrs|
      && OrdererEvents(nr, segments[..i + 1]) == OrdererEvents(nr, segments[..i]) + [NewOrderer(nr, i, segments[i])]
  {
    if i < |segments| {
      assert segments[..i + 1][..i] == segments[..i];
    }
  }

  // ---------------------------------------------------------------- one round of the delivery loop

  ghost predicate CanDeliver(e: Entry) {
    e.aborted || e.data.Cert?
  }

  ghost function FirstCert(s: State): Event
    requires s.nextDeliveredSN in s.commitLog
  {
    CertEvent(s.commitLog[s.nextDeliveredSN], s.nextDeliveredSN)
  }

  ghost function AllCerts(s: State): seq<Event> {
    CertEvents(Run(s.commitLog, s.nextDeliveredSN), s.nextDeliveredSN)
  }

  ghost function Delivered(s: State): State
    requires s.nextDeliveredSN in s.commitLog
  {
    var e := s.commitLog[s.nextDeliveredSN];
    s.(commitLog := s.commitLog - {s.nextDeliveredSN},
       nextDeliveredSN := s.nextDeliveredSN + 1,
       policy := if e.aborted then LP.Suspect(s.policy, s.epoch.nr, e.suspect) else s.policy)
  }

  /** Finishing from `now` comes to the same as running everything from `start`. */
  ghost predicate Delivering(start: State, now: State, out0: seq<Event>, out: seq<Event>) {
    && Drained(now) == Drained(start)
    && (Readable(Run(now.commitLog, now.nextDeliveredSN)) <==> Readable(Run(start.commitLog, start.nextDeliveredSN)))
    && out + AllCerts(now) == out0 + AllCerts(start)
  }

  lemma StartDelivering(s: State, out: seq<Event>)
    ensures Delivering(s, s, out, out)
  {}

  lemma FirstOfRun(s: State)
    requires s.nextDeliveredSN in s.commitLog
    ensures
      var run, rest := Run(s.commitLog, s.nextDeliveredSN), Run(Delivered(s).commitLog, s.nextDeliveredSN + 1);
      && run == [s.commitLog[s.nextDeliveredSN]] + rest
      && (Readable(run) <==> CanDeliver(s.commitLog[s.nextDeliveredSN]) && Readable(rest))
      && AllCerts(s) == [FirstCert(s)] + AllCerts(Delivered(s))
  {
    hide LP.Suspect;
    var run, rest := Run(s.commitLog, s.nextDeliveredSN), Run(Delivered(s).commitLog, s.nextDeliveredSN + 1);
    assert run[1..] == rest;
    assert forall x | x in rest :: x in run;
    assert run[0] in run;
  }

  lemma DrainedAfterOne(s: State)
    requires s.nextDeliveredSN in s.commitLog
    ensures Drained(Delivered(s)) == Drained(s)
  {
    hide LP.Suspect;
    var run, rest := Run(s.commitLog, s.nextDeliveredSN), Run(Delivered(s).commitLog, s.nextDeliveredSN + 1);
    assert run[1..] == rest;
    assert Drained(Delivered(s)).commitLog == Drained(s).commitLog;
  }

  lemma KeepDelivering(start: State, s: State, out0: seq<Event>, out: seq<Event>)
    requires s.nextDeliveredSN in s.commitLog && Delivering(start, s, out0, out)
    ensures
      var e := s.commitLog[s.nextDeliveredSN];
      && (!CanDeliver(e) ==> !Readable(Run(start.commitLog, start.nextDeliveredSN)))
      && (CanDeliver(e) ==> Delivering(start, Delivered(s), out0, out + [FirstCert(s)]))
  {
    hide Drained, AllCerts, Readable, CanDeliver, FirstCert, LP.Suspect;
    FirstOfRun(s);
    DrainedAfterOne(s);
    assert out + [FirstCert(s)] + AllCerts(Delivered(s)) == out + ([FirstCert(s)] + AllCerts(Delivered(s)));
  }

  lemma DoneDelivering(start: State, s: State, out0: seq<Event>, out: seq<Event>)
    requires s.nextDeliveredSN !in s.commitLog && Delivering(start, s, out0, out)
    ensures s == Drained(start) && out == out0 + AllCerts(start)
    ensures Readable(Run(start.commitLog, start.nextDeliveredSN))
  {
    assert Run(s.commitLog, s.nextDeliveredSN) == [];
    assert Drained(s).commitLog == s.commitLog;
    assert out + [] == out;
  }
}
