/** Checking the certificate of a stable checkpoint (pkg/checkpoint/checkpoint.go) and the two
    validators built on it (pkg/checkpoint/chkpvalidator). */
module Certificates {
  import opened Lists
  import opened Quorums
  import opened Types

  /** Looking up the weight of a signer outside the membership dereferences a nil identity, so
      VerifyCert panics on such a certificate before it reaches its own membership check. */
  datatype Verdict = Accepted | Rejected | Panicked

  function Claim(hash: StateSnapshot -> Digest, c: StableCheckpoint): ChkpClaim {
    ChkpClaim(c.Epoch(), c.sn, hash(c.snapshot))
  }

  ghost function VerifyCert(hash: StateSnapshot -> Digest, c: StableCheckpoint, m: Membership): Verdict {
    if !(c.cert.Keys <= m.Keys) then Panicked
    else if !HaveWeakQuorum(m, c.cert.Keys) then Rejected
    else if forall n | n in c.cert :: VerifySig(Claim(hash, c), c.cert[n], n) then Accepted
    else Rejected
  }

  /** Certificate verification as it runs. Summing the weights comes first, and panics on a signer that is not a
      member. */
  method RunVerifyCert(hash: StateSnapshot -> Digest, c: StableCheckpoint, m: Membership) returns (v: Verdict)
    ensures v == VerifyCert(hash, c, m)
  {
    hide SetWeight;
    var signers := ListOf(c.cert.Keys);
    var all := ListOf(m.Keys);
    for i := 0 to |signers|
      invariant forall j | 0 <= j < i :: signers[j] in m
    {
      if signers[i] !in m {
        assert signers[i] in Elements(signers);
        return Panicked;
      }
    }
    var weight := SumWeights(m, signers);
    var total := SumWeights(m, all);
    assert forall n | n in c.cert :: n in Elements(signers);
    if weight < MaxFaulty(total) + 1 {
      return Rejected;
    }
    for i := 0 to |signers|
      invariant forall j | 0 <= j < i :: VerifySig(Claim(hash, c), c.cert[signers[j]], signers[j])
    {
      assert signers[i] in Elements(signers);
      if !VerifySig(Claim(hash, c), c.cert[signers[i]], signers[i]) {
        return Rejected;
      }
    }
    v := Accepted;
  }

  ghost predicate SyntacticCheck(c: StableCheckpoint, configOffset: nat) {
    && |c.Memberships()| == configOffset + 1
    && (forall m | m in c.Memberships() :: Valid(m))
    && (c.Epoch() > 0 ==> Valid(c.PreviousMembership()))
  }

  /** The same node has the same identity in all the memberships of the checkpoint. */
  ghost predicate IdentitiesAgree(ms: seq<Membership>) {
    forall i, j, n | 0 <= i < |ms| && 0 <= j < |ms| && n in ms[i] && n in ms[j] :: ms[i][n] == ms[j][n]
  }

  ghost predicate MembershipConsistency(c: StableCheckpoint, m: Membership) {
    && IdentitiesAgree(c.Memberships())
    && (c.Epoch() > 0 ==> c.PreviousMembership() == m)
  }

  ghost function Verify(hash: StateSnapshot -> Digest, c: StableCheckpoint, configOffset: nat, m: Membership): Verdict {
    if !SyntacticCheck(c, configOffset) then Rejected
    else if c.Epoch() > 0 && VerifyCert(hash, c, m) != Accepted then VerifyCert(hash, c, m)
    else if c.Epoch() == 0 && c.PreviousMembership() != map[] then Rejected
    else if MembershipConsistency(c, m) then Accepted
    else Rejected
  }

  /** The certificate has valid signatures, all by members and by enough of them. */
  ghost predicate WellSigned(hash: StateSnapshot -> Digest, c: StableCheckpoint, m: Membership) {
    && (forall n | n in c.cert :: n in m && c.cert[n] == Signed(n, Claim(hash, c)))
    && c.cert.Keys <= m.Keys && SetWeight(m, c.cert.Keys) > MaxFaulty(TotalWeight(m))
  }

  /** Verification accepts exactly the checkpoints that are well-formed, consistent and, except for the first epoch,
      well signed by the membership before; the first epoch has no membership before it. It panics exactly on a signer
      that is not a member. */
  lemma VerifyMeans(hash: StateSnapshot -> Digest, c: StableCheckpoint, configOffset: nat, m: Membership)
    ensures
      Verify(hash, c, configOffset, m) == Accepted <==>
        && SyntacticCheck(c, configOffset) && IdentitiesAgree(c.Memberships())
        && (if c.Epoch() > 0 then WellSigned(hash, c, m) && c.PreviousMembership() == m
            else c.PreviousMembership() == map[])
    ensures
      Verify(hash, c, configOffset, m) == Panicked <==>
        SyntacticCheck(c, configOffset) && c.Epoch() > 0 && exists n | n in c.cert :: n !in m
  {
    hide SetWeight, SyntacticCheck, IdentitiesAgree;
  }

  /** The nested loops of verifyMembershipConsistency: one table of identities, filled on first
      sight of a node and compared afterwards. */
  method CheckIdentities(ms: seq<Membership>) returns (ok: bool)
    ensures ok <==> IdentitiesAgree(ms)
  {
    var seen: map<NodeId, NodeIdentity> := map[];
    for i := 0 to |ms|
      invariant forall n :: n in seen <==> exists k | 0 <= k < i :: n in ms[k]
      invariant forall k, n | 0 <= k < i && n in ms[k] :: seen[n] == ms[k][n]
    {
      ghost var before := seen;
      var rest := ms[i].Keys;
      while rest != {}
        invariant rest <= ms[i].Keys
        invariant seen.Keys == before.Keys + (ms[i].Keys - rest)
        invariant forall n | n in before :: seen[n] == before[n]
        invariant forall n | n in ms[i].Keys - rest :: seen[n] == ms[i][n]
      {
        var n: NodeId :| n in rest;
        rest := rest - {n};
        if n !in seen {
          seen := seen[n := ms[i][n]];
        } else if seen[n] != ms[i][n] {
          var k :| 0 <= k < i && n in ms[k];
          assert ms[k][n] != ms[i][n];
          return false;
        }
      }
    }
    forall i, j, n | 0 <= i < |ms| && 0 <= j < |ms| && n in ms[i] && n in ms[j]
      ensures ms[i][n] == ms[j][n]
    {
      assert seen[n] == ms[i][n] && seen[n] == ms[j][n];
    }
    ok := true;
  }

  method RunSyntacticCheck(c: StableCheckpoint, configOffset: nat) returns (ok: bool)
    ensures ok <==> SyntacticCheck(c, configOffset)
  {
    hide Valid;
    var ms := c.Memberships();
    if |ms| != configOffset + 1 {
      return false;
    }
    for i := 0 to |ms|
      invariant forall j | 0 <= j < i :: Valid(ms[j])
    {
      ok := RunValid(ms[i]);
      if !ok {
        return;
      }
    }
    ok := true;
    if c.Epoch() > 0 {
      ok := RunValid(c.PreviousMembership());
    }
  }

  /** Verification as it runs, first error first. */
  method RunVerify(hash: StateSnapshot -> Digest, c: StableCheckpoint, configOffset: nat, m: Membership)
    returns (v: Verdict)
    ensures v == Verify(hash, c, configOffset, m)
  {
    hide SyntacticCheck, VerifyCert, IdentitiesAgree;
    var ok := RunSyntacticCheck(c, configOffset);
    if !ok {
      return Rejected;
    }
    if c.Epoch() > 0 {
      v := RunVerifyCert(hash, c, m);
      if v != Accepted {
        return;
      }
    } else if c.PreviousMembership() != map[] {
      return Rejected;
    }
    ok := CheckIdentities(c.Memberships());
    if !ok || (c.Epoch() > 0 && c.PreviousMembership() != m) {
      return Rejected;
    }
    v := Accepted;
  }

  // ---------------------------------------------------------------- validators

  datatype ValidatorParams = ValidatorParams(configOffset: nat, ownId: NodeId, hash: StateSnapshot -> Digest)

  /** How many epochs the checkpoint's last signed epoch lies ahead of the local one. */
  function MembershipOffset(c: StableCheckpoint, epochNr: EpochNr): int {
    c.Epoch() - 1 - epochNr
  }

  ghost predicate WellFormedForUs(v: ValidatorParams, c: StableCheckpoint) {
    SyntacticCheck(c, v.configOffset) && v.ownId in c.Memberships()[0]
  }

  ghost function ConservativeVerify(
      v: ValidatorParams, c: StableCheckpoint, epochNr: EpochNr, ms: seq<Membership>): Verdict
  {
    var offset := MembershipOffset(c, epochNr);
    if !WellFormedForUs(v, c) then Rejected
    else if offset <= 0 || offset > v.configOffset then Rejected
    else if offset >= |ms| then Panicked
    else Verify(v.hash, c, v.configOffset, ms[offset])
  }

  ghost function PermissiveVerify(
      v: ValidatorParams, c: StableCheckpoint, epochNr: EpochNr, ms: seq<Membership>): Verdict
  {
    var offset := MembershipOffset(c, epochNr);
    if !WellFormedForUs(v, c) then Rejected
    else if offset > v.configOffset then Verify(v.hash, c, v.configOffset, c.PreviousMembership())
    else if offset < 0 || offset >= |ms| then Panicked
    else Verify(v.hash, c, v.configOffset, ms[offset])
  }

  /** No validator accepts a checkpoint that is malformed or of an epoch in which the node is not a member. The
      conservative one accepts nothing but what the permissive one accepts too, and panics only where that does. */
  lemma AcceptedConcernsUs(v: ValidatorParams, c: StableCheckpoint, epochNr: EpochNr, ms: seq<Membership>)
    ensures
      PermissiveVerify(v, c, epochNr, ms) == Accepted ==>
        SyntacticCheck(c, v.configOffset) && v.ownId in c.Memberships()[0]
    ensures ConservativeVerify(v, c, epochNr, ms) == Accepted ==> PermissiveVerify(v, c, epochNr, ms) == Accepted
    ensures ConservativeVerify(v, c, epochNr, ms) == Panicked ==> PermissiveVerify(v, c, epochNr, ms) == Panicked
  {
    hide Verify, SyntacticCheck;
  }

  /** What acceptance is worth: with the pipeline of memberships indexed by epoch (memberships[i]
      belongs to epoch epochNr + i, as ISS keeps it), a checkpoint the conservative validator accepts
      lies between 2 and configOffset + 1 epochs ahead and carries valid signatures of a weak quorum
      of the membership of the epoch just before its own, hence the signature of a correct node. */
  lemma ConservativeAcceptanceIsBacked(
      v: ValidatorParams, c: StableCheckpoint, epochNr: EpochNr, ms: seq<Membership>,
      membershipOf: EpochNr -> Membership, faulty: set<NodeId>)
    returns (backer: NodeId)
    requires |ms| == v.configOffset + 1
    requires forall i | 0 <= i < |ms| :: ms[i] == membershipOf(epochNr + i)
    requires forall i | 0 <= i < |ms| :: NonNegative(ms[i])
    requires forall i | 0 <= i < |ms| :: SetWeight(ms[i], faulty * ms[i].Keys) <= MaxFaulty(TotalWeight(ms[i]))
    requires ConservativeVerify(v, c, epochNr, ms) == Accepted
    ensures epochNr + 2 <= c.Epoch() <= epochNr + 1 + v.configOffset
    ensures c.PreviousMembership() == membershipOf((c.Epoch() - 1) as nat)
    ensures VerifyCert(v.hash, c, membershipOf((c.Epoch() - 1) as nat)) == Accepted
    ensures backer in membershipOf((c.Epoch() - 1) as nat) && backer !in faulty && backer in c.cert
    ensures c.cert[backer] == Signed(backer, Claim(v.hash, c))
  {
    var m := ms[MembershipOffset(c, epochNr)];
    backer := WeakQuorumHasCorrect(m, c.cert.Keys, faulty);
  }
}
