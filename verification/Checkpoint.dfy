/** One node's instance of the checkpoint protocol (pkg/checkpoint/protocol.go). */
module Checkpoint {
  import opened Lists
  import opened Quorums
  import opened Types

  datatype Params = Params(
    ownId: NodeId, membership: Membership, config: EpochConfig, leaderPolicy: PolicyData)

  datatype Msg = Msg(epoch: EpochNr, sn: SeqNr, hash: Digest, sig: ChkpSig)

  datatype Output =
    | HashRequest(snapshot: StateSnapshot)
    | SignRequest(claim: ChkpClaim)
    | VerifyRequest(claim: ChkpClaim, sig: ChkpSig, node: NodeId)
    | Broadcast(msg: Msg)
    | EpochProgress(node: NodeId, epoch: EpochNr)
    | Announce(chkp: StableCheckpoint)

  datatype State = State(
    appData: Option<Bytes>,
    progress: Option<map<ClientId, DeliveredPb>>,
    hash: Option<Digest>,
    signatures: map<NodeId, ChkpSig>,
    sigReceived: set<NodeId>,
    pending: map<NodeId, Msg>,
    announced: bool)

  const INIT := State(None, None, None, map[], {}, map[], false)

  predicate SnapshotReady(s: State) {
    s.appData.Some? && s.progress.Some?
  }

  function Snapshot(p: Params, s: State): StateSnapshot
    requires SnapshotReady(s)
  {
    StateSnapshot(s.appData.value, EpochData(p.config, s.progress.value, p.leaderPolicy, p.membership))
  }

  function OwnClaim(p: Params, s: State): ChkpClaim
    requires s.hash.Some?
  {
    ChkpClaim(p.config.epochNr, p.config.firstSn, s.hash.value)
  }

  ghost predicate Stable(p: Params, s: State)
    requires s.signatures.Keys <= p.membership.Keys
  {
    SnapshotReady(s) && HaveStrongQuorum(p.membership, s.signatures.Keys)
  }

  // ---------------------------------------------------------------- handlers, as functions of the state

  function SaveAppData(p: Params, s: State, data: Option<Bytes>): (State, set<Output>) {
    // Missing data counts as empty data.
    var bytes := if data.Some? then data.value else [];
    if s.appData.Some? then (s, {})
    else
      var s' := s.(appData := Some(bytes));
      (s', if SnapshotReady(s') then {HashRequest(Snapshot(p, s'))} else {})
  }

  function SaveProgress(p: Params, s: State, progress: map<ClientId, DeliveredPb>): (State, set<Output>) {
    if s.progress.Some? then (s, {})
    else
      var s' := s.(progress := Some(progress));
      (s', if SnapshotReady(s') then {HashRequest(Snapshot(p, s'))} else {})
  }

  function SaveHash(p: Params, s: State, digest: Digest): (State, set<Output>) {
    var s' := s.(hash := Some(digest));
    (s', {SignRequest(OwnClaim(p, s'))})
  }

  ghost function AnnounceIfStable(p: Params, s: State): (State, set<Output>)
    requires s.signatures.Keys <= p.membership.Keys
  {
    if Stable(p, s) && !s.announced then
      (s.(announced := true), {Announce(StableCheckpoint(p.config.firstSn, Snapshot(p, s), s.signatures))})
    else (s, {})
  }

  predicate Relevant(p: Params, from: NodeId, msg: Msg) {
    msg.sn == p.config.firstSn && msg.epoch == p.config.epochNr && from in p.membership
  }

  /** Whether a relevant message leads to verifying its signature. */
  ghost predicate WorthVerifying(p: Params, s: State, from: NodeId, msg: Msg)
    requires s.signatures.Keys <= p.membership.Keys
  {
    !Stable(p, s) && s.hash == Some(msg.hash) && from !in s.sigReceived
  }

  ghost function Receive(p: Params, s: State, from: NodeId, msg: Msg): (State, set<Output>)
    requires s.signatures.Keys <= p.membership.Keys
  {
    if !Relevant(p, from, msg) then (s, {})
    else
      var progress := {EpochProgress(from, msg.epoch)};
      if Stable(p, s) then (s, progress)
      else if s.hash.None? then (s.(pending := s.pending[from := msg]), progress)
      else if WorthVerifying(p, s, from, msg) then
        (s.(sigReceived := s.sigReceived + {from}), progress + {VerifyRequest(OwnClaim(p, s), msg.sig, from)})
      else (s, progress)
  }

  ghost function SaveVerified(p: Params, s: State, node: NodeId, valid: bool, sig: ChkpSig): (State, set<Output>)
    requires s.signatures.Keys <= p.membership.Keys && node in p.membership
  {
    if valid then AnnounceIfStable(p, s.(signatures := s.signatures[node := sig]))
    else (s, {})
  }

  /** Receiving the messages of the given senders among the pending ones, in any order: none of them
      affects what happens to the others. */
  ghost function ReceiveAll(p: Params, s: State, msgs: map<NodeId, Msg>): (State, set<Output>)
    requires s.signatures.Keys <= p.membership.Keys && s.hash.Some?
  {
    (s.(sigReceived := s.sigReceived + ToVerify(p, s, msgs)), Progresses(p, msgs) + Verifications(p, s, msgs))
  }

  ghost function ToVerify(p: Params, s: State, msgs: map<NodeId, Msg>): set<NodeId>
    requires s.signatures.Keys <= p.membership.Keys
  {
    set n | n in msgs && Relevant(p, n, msgs[n]) && WorthVerifying(p, s, n, msgs[n])
  }

  ghost function Progresses(p: Params, msgs: map<NodeId, Msg>): set<Output> {
    set n | n in msgs && Relevant(p, n, msgs[n]) :: EpochProgress(n, msgs[n].epoch)
  }

  ghost function Verifications(p: Params, s: State, msgs: map<NodeId, Msg>): set<Output>
    requires s.signatures.Keys <= p.membership.Keys && s.hash.Some?
  {
    set n | n in ToVerify(p, s, msgs) :: VerifyRequest(OwnClaim(p, s), msgs[n].sig, n)
  }

  ghost function SaveOwnSignature(p: Params, s: State, sig: ChkpSig): (State, set<Output>)
    requires s.signatures.Keys <= p.membership.Keys && p.ownId in p.membership && s.hash.Some?
  {
    var s1 := s.(signatures := s.signatures[p.ownId := sig], sigReceived := s.sigReceived + {p.ownId});
    var (s2, out2) := AnnounceIfStable(p, s1);
    var msg := Msg(p.config.epochNr, p.config.firstSn, s.hash.value, sig);
    var (s3, out3) := ReceiveAll(p, s2, s.pending);
    (s3.(pending := map[]), out2 + {Broadcast(msg)} + out3)
  }

  // ---------------------------------------------------------------- the module

  /** The handlers as the module runs them. */
  class Module {
    const p: Params
    var appData: Option<Bytes>
    var progress: Option<map<ClientId, DeliveredPb>>
    var hash: Option<Digest>
    var signatures: map<NodeId, ChkpSig>
    var sigReceived: set<NodeId>
    var pending: map<NodeId, Msg>
    var announced: bool

    ghost function St(): State
      reads this
    {
      State(appData, progress, hash, signatures, sigReceived, pending, announced)
    }

    /** The hash is only requested of a complete snapshot, and signatures only checked for members. */
    ghost predicate Valid()
      reads this
    {
      && signatures.Keys <= p.membership.Keys && sigReceived <= p.membership.Keys
      && (hash.Some? ==> SnapshotReady(St()))
    }

    constructor (p: Params)
      ensures this.p == p && St() == INIT && Valid()
    {
      this.p := p;
      appData, progress, hash := None, None, None;
      signatures, sigReceived, pending, announced := map[], {}, map[], false;
    }

    method UponSnapshot(data: Option<Bytes>) returns (out: set<Output>)
      requires Valid()
      modifies this`appData
      ensures Valid() && (St(), out) == SaveAppData(p, old(St()), data)
    {
      var bytes := if data.Some? then data.value else [];
      out := {};
      if appData.None? {
        appData := Some(bytes);
        if progress.Some? {
          out := {HashRequest(StateSnapshot(bytes, EpochData(p.config, progress.value, p.leaderPolicy, p.membership)))};
        }
      }
    }

    method UponClientProgress(clientProgress: map<ClientId, DeliveredPb>) returns (out: set<Output>)
      requires Valid()
      modifies this`progress
      ensures Valid() && (St(), out) == SaveProgress(p, old(St()), clientProgress)
    {
      out := {};
      if progress.None? {
        progress := Some(clientProgress);
        if appData.Some? {
          var epochData := EpochData(p.config, clientProgress, p.leaderPolicy, p.membership);
          out := {HashRequest(StateSnapshot(appData.value, epochData))};
        }
      }
    }

    /** Answers a hash request, which is made once the snapshot is complete. */
    method UponHashResult(digest: Digest) returns (out: set<Output>)
      requires Valid() && SnapshotReady(St())
      modifies this`hash
      ensures Valid() && (St(), out) == SaveHash(p, old(St()), digest)
    {
      hash := Some(digest);
      out := {SignRequest(ChkpClaim(p.config.epochNr, p.config.firstSn, digest))};
    }

    /** Summing the weights of the signers panics if one of them is not a member. */
    method IsStable() returns (ok: bool, stable: bool)
      ensures ok <==> (SnapshotReady(St()) ==> signatures.Keys <= p.membership.Keys)
      ensures ok && signatures.Keys <= p.membership.Keys ==> (stable <==> Stable(p, St()))
    {
      hide SetWeight;
      if appData.None? || progress.None? {
        return true, false;
      }
      var ids := ListOf(signatures.Keys);
      var all := ListOf(p.membership.Keys);
      assert forall n | n in all :: n in Elements(all);
      for i := 0 to |ids|
        invariant forall j | 0 <= j < i :: ids[j] in p.membership
      {
        if ids[i] !in p.membership {
          assert ids[i] in Elements(ids);
          return false, false;
        }
      }
      assert forall n | n in signatures :: n in Elements(ids);
      var w := SumWeights(p.membership, ids);
      var n := SumWeights(p.membership, all);
      ok, stable := true, w >= (n + MaxFaulty(n)) / 2 + 1;
    }

    method AnnounceStable() returns (out: set<Output>)
      requires Valid() && Stable(p, St())
      modifies this`announced
      ensures Valid() && (St(), out) == AnnounceIfStable(p, old(St()))
    {
      if announced {
        return {};
      }
      announced := true;
      var snapshot := StateSnapshot(appData.value, EpochData(p.config, progress.value, p.leaderPolicy, p.membership));
      out := {Announce(StableCheckpoint(p.config.firstSn, snapshot, signatures))};
    }

    method ApplyCheckpointReceived(from: NodeId, msg: Msg) returns (out: set<Output>)
      requires Valid()
      modifies this`pending, this`sigReceived
      ensures Valid() && (St(), out) == Receive(p, old(St()), from, msg)
    {
      if msg.sn != p.config.firstSn {
        return {};
      }
      if msg.epoch != p.config.epochNr {
        return {};
      }
      if from !in p.membership {
        return {};
      }
      out := {EpochProgress(from, msg.epoch)};
      var _, stable := IsStable();
      if stable {
        return;
      }
      if hash.None? {
        pending := pending[from := msg];
        return;
      } else if hash.value != msg.hash {
        return;
      }
      if from in sigReceived {
        return;
      }
      sigReceived := sigReceived + {from};
      out := out + {VerifyRequest(ChkpClaim(p.config.epochNr, p.config.firstSn, hash.value), msg.sig, from)};
    }

    /** Answers a signature request, which is made once the hash is known. Panics if the node is not a member. */
    method UponSignResult(sig: ChkpSig) returns (ok: bool, out: set<Output>)
      requires Valid() && hash.Some?
      modifies this
      ensures ok <==> p.ownId in p.membership
      ensures ok ==> Valid() && (St(), out) == SaveOwnSignature(p, old(St()), sig)
    {
      signatures := signatures[p.ownId := sig];
      sigReceived := sigReceived + {p.ownId};
      out := {};
      var stable;
      ok, stable := IsStable();
      if !ok {
        return;
      }
      if stable {
        out := AnnounceStable();
      }
      out := out + {Broadcast(Msg(p.config.epochNr, p.config.firstSn, hash.value, sig))};
      var more := ApplyPending();
      out := out + more;
      pending := map[];
    }

    /** Applies the pending messages, in whatever order the map yields them. */
    method ApplyPending() returns (out: set<Output>)
      requires Valid() && hash.Some?
      modifies this`pending, this`sigReceived
      ensures Valid() && (St(), out) == ReceiveAll(p, old(St()), old(pending))
    {
      var msgs := pending;
      ghost var s := St();
      ghost var done: set<NodeId> := {};
      var rest := msgs.Keys;
      out := {};
      assert Restrict(msgs, done) == map[];
      assert ReceiveAll(p, s, map[]).0.sigReceived == s.sigReceived && ReceiveAll(p, s, map[]).1 == {};
      while rest != {}
        invariant Valid() && done !! rest && done + rest == msgs.Keys
        invariant (St(), out) == ReceiveAll(p, s, Restrict(msgs, done))
        decreases rest
      {
        var n: NodeId :| n in rest;
        var more := ApplyCheckpointReceived(n, msgs[n]);
        ReceiveOneMore(p, s, msgs, done, n);
        out := out + more;
        done := done + {n};
        rest := rest - {n};
      }
      assert Restrict(msgs, done) == msgs;
    }

    /** Answers a verification request, which is made for a sender that was noted before. */
    method UponSigVerified(node: NodeId, valid: bool, sig: ChkpSig) returns (out: set<Output>)
      requires Valid() && node in sigReceived
      modifies this
      ensures Valid() && (St(), out) == SaveVerified(p, old(St()), node, valid, sig)
    {
      if !valid {
        return {};
      }
      signatures := signatures[node := sig];
      out := {};
      var _, stable := IsStable();
      if stable {
        out := AnnounceStable();
      }
    }
  }

  ghost function Restrict(msgs: map<NodeId, Msg>, ids: set<NodeId>): map<NodeId, Msg> {
    map n | n in msgs && n in ids :: msgs[n]
  }

  lemma ProgressesOneMore(p: Params, before: map<NodeId, Msg>, n: NodeId, msg: Msg)
    requires n !in before
    ensures Progresses(p, before[n := msg]) ==
            Progresses(p, before) + if Relevant(p, n, msg) then {EpochProgress(n, msg.epoch)} else {}
  {
    var after := before[n := msg];
    forall k | k in before && Relevant(p, k, before[k])
      ensures EpochProgress(k, before[k].epoch) in Progresses(p, after)
    {
      assert k in after && after[k] == before[k];
    }
    assert n in after && after[n] == msg;
  }

  lemma VerificationsOneMore(p: Params, s: State, before: map<NodeId, Msg>, n: NodeId, msg: Msg)
    requires s.signatures.Keys <= p.membership.Keys && s.hash.Some? && n !in before
    ensures Verifications(p, s, before[n := msg]) ==
            Verifications(p, s, before) +
            if Relevant(p, n, msg) && WorthVerifying(p, s, n, msg)
            then {VerifyRequest(OwnClaim(p, s), msg.sig, n)} else {}
  {
    var after := before[n := msg];
    forall k | k in ToVerify(p, s, before)
      ensures VerifyRequest(OwnClaim(p, s), before[k].sig, k) in Verifications(p, s, after)
    {
      assert k in after && after[k] == before[k];
      assert k in ToVerify(p, s, after);
    }
    assert n in after && after[n] == msg;
    assert Relevant(p, n, msg) && WorthVerifying(p, s, n, msg) ==> n in ToVerify(p, s, after);
  }

  lemma ReceiveOneMore(p: Params, s: State, msgs: map<NodeId, Msg>, done: set<NodeId>, n: NodeId)
    requires s.signatures.Keys <= p.membership.Keys && s.hash.Some?
    requires n in msgs && n !in done
    ensures
      var (s1, out1) := ReceiveAll(p, s, Restrict(msgs, done));
      var (s2, out2) := Receive(p, s1, n, msgs[n]);
      (s2, out1 + out2) == ReceiveAll(p, s, Restrict(msgs, done + {n}))
  {
    var before, after := Restrict(msgs, done), Restrict(msgs, done + {n});
    assert after == before[n := msgs[n]];
    var (s1, out1) := ReceiveAll(p, s, before);
    var (s2, out2) := Receive(p, s1, n, msgs[n]);
    var verified := Relevant(p, n, msgs[n]) && WorthVerifying(p, s, n, msgs[n]);
    assert ToVerify(p, s, after) == ToVerify(p, s, before) + if verified then {n} else {};
    assert s2.sigReceived == s.sigReceived + ToVerify(p, s, after);
    var progress := if Relevant(p, n, msgs[n]) then {EpochProgress(n, msgs[n].epoch)} else {};
    ProgressesOneMore(p, before, n, msgs[n]);
    var request := if verified then {VerifyRequest(OwnClaim(p, s), msgs[n].sig, n)} else {};
    VerificationsOneMore(p, s, before, n, msgs[n]);
    assert out2 == progress + request;
    assert out1 + out2 == Progresses(p, after) + Verifications(p, s, after);
  }
}
