/** Values shared by the checkpoint protocol, its validators and ISS
    (pkg/trantor/types, pkg/pb/trantorpb, pkg/pb/checkpointpb).

    Serialisation is ideal: a serialised leader policy is the policy itself or malformed bytes.
    Signatures are ideal: one verifies for a node and some data exactly when that node made it
    for that data. */
module Types {
  import opened Quorums

  datatype Option<+T> = None | Some(value: T)

  type SeqNr = nat
  type EpochNr = nat
  type ClientId = string
  type TxNo = nat

  /** Opaque application bytes. */
  type Bytes = seq<bv8>

  datatype Signature<+D> = Signed(signer: NodeId, data: D) | Junk(bits: nat)

  predicate VerifySig<D(==)>(data: D, sig: Signature<D>, node: NodeId) {
    sig == Signed(node, data)
  }

  datatype LeaderPolicy =
    | Simple(nodes: seq<NodeId>)
    | Blacklist(membership: Membership, suspected: map<NodeId, EpochNr>)

  datatype PolicyData = Encoded(policy: LeaderPolicy) | Malformed(bits: nat)

  /** The serialised progress of one client. */
  datatype DeliveredPb = DeliveredPb(lowWm: TxNo, delivered: seq<TxNo>)

  datatype EpochConfig = EpochConfig(epochNr: EpochNr, firstSn: SeqNr, length: nat, memberships: seq<Membership>)

  datatype EpochData = EpochData(
    config: EpochConfig,
    clientProgress: map<ClientId, DeliveredPb>,
    leaderPolicy: PolicyData,
    previousMembership: Membership)

  datatype StateSnapshot = StateSnapshot(appData: Bytes, epochData: EpochData)

  type Digest = nat

  /** What a node signs for a checkpoint. */
  datatype ChkpClaim = ChkpClaim(epoch: EpochNr, sn: SeqNr, hash: Digest)

  type ChkpSig = Signature<ChkpClaim>

  datatype StableCheckpoint = StableCheckpoint(sn: SeqNr, snapshot: StateSnapshot, cert: map<NodeId, ChkpSig>) {
    function Epoch(): EpochNr { snapshot.epochData.config.epochNr }
    function Memberships(): seq<Membership> { snapshot.epochData.config.memberships }
    function PreviousMembership(): Membership { snapshot.epochData.previousMembership }
  }
}
