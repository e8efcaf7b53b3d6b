/** The ISS epoch machine as functions of its state (pkg/iss/iss.go). Module IssModule has the handlers
    in the form the program runs them. */
module Iss {
  import opened Lists
  import opened Quorums
  import opened Types
  import opened Segments
  import LP = LeaderPolicies
  import Checkpoint
  import SortedKeys

  datatype Params = Params(ownId: NodeId, configOffset: nat, segmentLength: nat, retainedEpochs: int)

  /** What an orderer delivers: bytes that decode to an availability certificate, or do not. */
  datatype SbData = Cert(id: nat) | Unreadable(bits: nat)

  /** The empty byte slice decodes to an empty certificate. */
  const EMPTY := Cert(0)

  datatype Entry = Entry(data: SbData, aborted: bool, suspect: NodeId)

  datatype EpochInfo = EpochInfo(nr: EpochNr, firstSN: SeqNr, membership: Membership, segments: seq<Segment>)

  datatype Event =
    // to the application
    | RestoreState(chkp: StableCheckpoint)
    | NewEpoch(nr: EpochNr)
    | DeliverCert(sn: SeqNr, cert: Option<SbData>)
    | StableChkp(chkp: StableCheckpoint)
    | SnapshotRequest(epoch: EpochNr)
    // to other modules
    | NewAvailability(epoch: EpochNr, membership: Membership)
    | ComputeCert(epoch: EpochNr)
    | NewOrderer(epoch: EpochNr, index: nat, segment: Segment)
    | NewChkpInstance(params: Checkpoint.Params)
    | NewPreprepareValidator(epoch: EpochNr, membership: Membership)
    | NewChkpOrderer(epoch: EpochNr, leader: NodeId, chkp: StableCheckpoint)
    | VerifyCert(epoch: EpochNr, sn: SeqNr, data: SbData, leader: NodeId)
    | ValidateCheckpoint(chkp: StableCheckpoint, epoch: EpochNr, memberships: seq<Membership>)
    | GarbageCollect(target: Target, index: nat)
    | PushPeriodically(index: nat)

  /** The modules that are told to drop old state. */
  datatype Target = Timer | CheckpointInstances | Availability | Ordering | ChkpPreprepareValidators | BatchDb

  datatype State = State(
    epoch: EpochInfo,
    memberships: seq<Membership>,
    nextNewMembership: Option<Membership>,
    commitLog: map<SeqNr, Entry>,
    nextDeliveredSN: SeqNr,
    newEpochSN: SeqNr,
    lastStable: StableCheckpoint,
    lastPendingSN: SeqNr,
    policy: LeaderPolicy,
    epochs: set<EpochNr>)

  /** An error return (or a panic) stops the node. */
  datatype Outcome = Ok(s: State, out: seq<Event>) | Error

  /** The Leaders method of the policy. That of the blacklist policy may break ties in any way. */
  type Chooser = LeaderPolicy -> seq<NodeId>

  /** The simple policy leaves no choice, and the blacklist policy chooses members. */
  ghost predicate ProperChooser(choose: Chooser) {
    && (forall nodes :: choose(Simple(nodes)) == nodes)
    && (forall m: Membership, suspected: map<NodeId, EpochNr> | suspected.Keys <= m.Keys && TotalWeight(m) > 0 ::
          Elements(choose(Blacklist(m, suspected))) <= m.Keys)
  }

  // ---------------------------------------------------------------- epochs

  function OrdererEvents(nr: EpochNr, segments: seq<Segment>): seq<Event> {
    seq(|segments|, i requires 0 <= i < |segments| => NewOrderer(nr, i, segments[i]))
  }

  function StartEpoch(p: Params, s: State, nr: EpochNr, leaders: seq<NodeId>): Outcome {
    if s.memberships == [] || exists l | l in leaders :: l !in s.memberships[0] then Error
    else
      var m := s.memberships[0];
      var segments := SegmentsOf(leaders, m, s.nextDeliveredSN, p.segmentLength);
      Ok(s.(epoch := EpochInfo(nr, s.newEpochSN, m, segments),
            newEpochSN := s.newEpochSN + EpochLen(segments),
            epochs := s.epochs + {nr}),
         [NewEpoch(nr), NewAvailability(nr, m), ComputeCert(nr)] + OrdererEvents(nr, segments))
  }

  function ChkpParams(p: Params, s: State, previous: Membership): Checkpoint.Params {
    Checkpoint.Params(p.ownId, previous,
      EpochConfig(s.epoch.nr, s.epoch.firstSN, EpochLen(s.epoch.segments), s.memberships),
      Encoded(s.policy))
  }

  function AdvanceEpoch(p: Params, s: State, choose: Chooser): Outcome
    requires s.nextNewMembership.Some?
  {
    if s.memberships == [] then Error
    else
      var memberships := s.memberships[1..] + [s.nextNewMembership.value];
      var policy := LP.Reconfigure(s.policy, memberships[0]);
      var nr := s.epoch.nr + 1;
      var s1 := s.(memberships := memberships, nextNewMembership := None, policy := policy);
      match StartEpoch(p, s1, nr, choose(policy))
      case Error => Error
      case Ok(s', out) =>
        Ok(s', out + [NewChkpInstance(ChkpParams(p, s', s.memberships[0])), SnapshotRequest(nr)])
  }

  predicate HasEpochCheckpoint(s: State) {
    s.lastStable.sn == s.epoch.firstSN
  }

  predicate EpochFinished(s: State) {
    s.nextDeliveredSN == s.newEpochSN && HasEpochCheckpoint(s) && s.nextNewMembership.Some?
  }

  // ---------------------------------------------------------------- delivery

  /** The entries that can be delivered starting at `next`, in order. */
  function Run(log: map<SeqNr, Entry>, next: SeqNr): seq<Entry> {
    if next !in log then [] else [log[next]] + Run(log - {next}, next + 1)
  }

  function CertEvent(e: Entry, sn: SeqNr): Event {
    DeliverCert(sn, if e.aborted then None else Some(e.data))
  }

  function CertEvents(entries: seq<Entry>, next: SeqNr): seq<Event> {
    if entries == [] then [] else [CertEvent(entries[0], next)] + CertEvents(entries[1..], next + 1)
  }

  function SuspectAll(policy: LeaderPolicy, nr: EpochNr, entries: seq<Entry>): LeaderPolicy
    decreases |entries|
  {
    if entries == [] then policy
    else SuspectAll(if entries[0].aborted then LP.Suspect(policy, nr, entries[0].suspect) else policy, nr, entries[1..])
  }

  predicate Readable(entries: seq<Entry>) {
    forall e | e in entries :: e.aborted || e.data.Cert?
  }

  function Without(log: map<SeqNr, Entry>, from: SeqNr, to: SeqNr): map<SeqNr, Entry> {
    map sn | sn in log && !(from <= sn < to) :: log[sn]
  }

  /** The state after delivering everything that can be delivered. */
  function Drained(s: State): State {
    var entries := Run(s.commitLog, s.nextDeliveredSN);
    var end := s.nextDeliveredSN + |entries|;
    s.(commitLog := Without(s.commitLog, s.nextDeliveredSN, end),
       nextDeliveredSN := end,
       policy := SuspectAll(s.policy, s.epoch.nr, entries))
  }

  function ProcessCommitted(p: Params, s: State, choose: Chooser): Outcome {
    if !HasEpochCheckpoint(s) then Ok(s, [])
    else
      var entries := Run(s.commitLog, s.nextDeliveredSN);
      var certs := CertEvents(entries, s.nextDeliveredSN);
      if !Readable(entries) then Error
      else if EpochFinished(Drained(s)) then
        match AdvanceEpoch(p, Drained(s), choose)
        case Error => Error
        case Ok(s', out) => Ok(s', certs + out)
      else Ok(Drained(s), certs)
  }

  function Insert(p: Params, s: State, sn: SeqNr, e: Entry, choose: Chooser): Outcome {
    ProcessCommitted(p, s.(commitLog := s.commitLog[sn := e]), choose)
  }

  // ---------------------------------------------------------------- handlers

  datatype Input =
    | SbDeliver(sn: SeqNr, data: SbData, aborted: bool, leader: NodeId)
    | SbCheckpoint(common: Option<StableCheckpoint>)
    | CertVerified(valid: bool, sn: SeqNr, data: SbData, leader: NodeId)
    | NewConfig(epochNr: EpochNr, membership: Membership)
    | ProtocolCheckpoint(chkp: StableCheckpoint)
    | CheckpointReceived(chkp: StableCheckpoint)
    | CheckpointValidated(ok: bool, chkp: StableCheckpoint)

  function OnSbDeliver(p: Params, s: State, i: Input, choose: Chooser): Outcome
    requires i.SbDeliver?
  {
    if i.aborted then Insert(p, s, i.sn, Entry(i.data, true, i.leader), choose)
    else if i.data.Unreadable? then
      Insert(p, s.(policy := LP.Suspect(s.policy, s.epoch.nr, i.leader)), i.sn, Entry(EMPTY, true, i.leader), choose)
    else Ok(s, [VerifyCert(s.epoch.nr, i.sn, i.data, i.leader)])
  }

  /** Certificates are only verified for data that was not aborted, so the saved context is not either. */
  function OnCertVerified(p: Params, s: State, i: Input, choose: Chooser): Outcome
    requires i.CertVerified?
  {
    if i.valid then Insert(p, s, i.sn, Entry(i.data, false, i.leader), choose)
    else Insert(p, s.(policy := LP.Suspect(s.policy, s.epoch.nr, i.leader)), i.sn, Entry(EMPTY, true, i.leader), choose)
  }

  function Prune(p: Params, epoch: EpochNr): seq<Event> {
    if epoch <= p.retainedEpochs then []
    else
      var index := epoch - p.retainedEpochs;
      [GarbageCollect(Timer, index), GarbageCollect(CheckpointInstances, index), GarbageCollect(Availability, index),
       GarbageCollect(Ordering, index), GarbageCollect(ChkpPreprepareValidators, index), GarbageCollect(BatchDb, index),
       PushPeriodically(index)]
  }

  function PruneEpochs(p: Params, s: State, epoch: EpochNr): State {
    if epoch <= p.retainedEpochs then s
    else s.(epochs := set e | e in s.epochs && e >= epoch - p.retainedEpochs)
  }

  function OnCommonCheckpoint(p: Params, s: State, common: Option<StableCheckpoint>, choose: Chooser): Outcome {
    match common
    case None => Error
    case Some(chkp) =>
      if chkp.sn <= s.lastStable.sn then Ok(s, [])
      else
        match ProcessCommitted(p, s.(lastStable := chkp), choose)
        case Error => Error
        case Ok(s', out) =>
          Ok(PruneEpochs(p, s', chkp.Epoch()), [StableChkp(chkp)] + out + Prune(p, chkp.Epoch()))
  }

  function OnNewConfig(p: Params, s: State, epochNr: EpochNr, m: Membership, choose: Chooser): Outcome {
    if epochNr < s.epoch.nr then Ok(s, [])
    else if s.nextNewMembership.Some? then Error
    else
      var s' := s.(nextNewMembership := Some(m));
      if EpochFinished(s') then AdvanceEpoch(p, s', choose) else Ok(s', [])
  }

  function OnProtocolCheckpoint(s: State, chkp: StableCheckpoint): Outcome {
    if chkp.sn <= s.lastPendingSN then Ok(s, [])
    else
      var nodes := SortedKeys.Sorted(chkp.PreviousMembership().Keys);
      if nodes == [] then Error
      else
        Ok(s.(lastPendingSN := chkp.sn),
           [NewPreprepareValidator(chkp.Epoch(), chkp.PreviousMembership()),
            NewChkpOrderer(chkp.Epoch(), nodes[chkp.Epoch() % |nodes|], chkp)])
  }

  predicate FarEnoughAhead(s: State, chkp: StableCheckpoint) {
    chkp.Epoch() - 1 - s.epoch.nr > 0
  }

  function OnCheckpointReceived(s: State, chkp: StableCheckpoint): Outcome {
    if FarEnoughAhead(s, chkp) then Ok(s, [ValidateCheckpoint(chkp, s.epoch.nr, s.memberships)]) else Ok(s, [])
  }

  /** The state in which the epoch of an installed checkpoint is started. */
  function Installed(s: State, chkp: StableCheckpoint, policy: LeaderPolicy): State {
    s.(policy := policy, commitLog := map[], nextDeliveredSN := chkp.sn, newEpochSN := chkp.sn,
       memberships := chkp.Memberships(), nextNewMembership := None, lastStable := chkp, epochs := {})
  }

  function PruneAll(epoch: EpochNr): seq<Event> {
    [GarbageCollect(Timer, epoch), GarbageCollect(CheckpointInstances, epoch), GarbageCollect(Availability, epoch),
     GarbageCollect(Ordering, epoch)]
  }

  function Install(p: Params, s: State, chkp: StableCheckpoint, policy: LeaderPolicy, choose: Chooser): Outcome {
    match StartEpoch(p, Installed(s, chkp, policy), chkp.Epoch(), choose(policy))
    case Error => Error
    case Ok(s', out) =>
      Ok(s', [RestoreState(chkp)] + out + [StableChkp(chkp)] + PruneAll(chkp.Epoch()))
  }

  function OnCheckpointValidated(p: Params, s: State, ok: bool, chkp: StableCheckpoint, choose: Chooser): Outcome {
    if !ok || !FarEnoughAhead(s, chkp) then Ok(s, [])
    else match chkp.snapshot.epochData.leaderPolicy
      case Malformed(_) => Ok(s, [])
      case Encoded(policy) => Install(p, s, chkp, policy, choose)
  }

  function Step(p: Params, s: State, i: Input, choose: Chooser): Outcome {
    match i
    case SbDeliver(_, _, _, _) => OnSbDeliver(p, s, i, choose)
    case SbCheckpoint(common) => OnCommonCheckpoint(p, s, common, choose)
    case CertVerified(_, _, _, _) => OnCertVerified(p, s, i, choose)
    case NewConfig(epochNr, m) => OnNewConfig(p, s, epochNr, m, choose)
    case ProtocolCheckpoint(chkp) => OnProtocolCheckpoint(s, chkp)
    case CheckpointReceived(chkp) => OnCheckpointReceived(s, chkp)
    case CheckpointValidated(ok, chkp) => OnCheckpointValidated(p, s, ok, chkp, choose)
  }

  /** The state of a new instance, and its Init event. */
  function New(chkp: StableCheckpoint, policy: LeaderPolicy): State {
    State(EpochInfo(chkp.Epoch(), chkp.sn, map[], []), chkp.Memberships(), None, map[], chkp.sn, chkp.sn, chkp, 0,
          policy, {})
  }

  function Init(p: Params, chkp: StableCheckpoint, policy: LeaderPolicy, choose: Chooser): Outcome {
    match StartEpoch(p, New(chkp, policy), chkp.Epoch(), choose(policy))
    case Error => Error
    case Ok(s, out) => Ok(s, [RestoreState(chkp)] + out)
  }
}
