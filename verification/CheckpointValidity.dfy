/** Checkpoints are announced (pkg/checkpoint/protocol.go): by every correct node that has a complete snapshot and
    enough signatures for it, and by all correct nodes if they agree and everything among them has been done. */
module CheckpointValidity {
  import opened Quorums
  import opened Types
  import opened Checkpoint
  import opened CheckpointSystem
  import opened Certificates

  // ---------------------------------------------------------------- announcing

  ghost predicate HasAnnounced(s: System, n: NodeId) {
    exists chkp :: (n, chkp) in s.announcements
  }

  ghost predicate AnnouncedOnce(s: System, n: NodeId) {
    forall a, b | a in s.announcements && b in s.announcements && a.0 == n && b.0 == n :: a == b
  }

  /** The node has announced exactly if its checkpoint is stable, and then once. */
  ghost predicate Told(c: Config, s: System, n: NodeId) {
    && n in c.params && n in s.nodes && s.nodes[n].signatures.Keys <= c.params[n].membership.Keys
    && (s.nodes[n].announced <==> HasAnnounced(s, n)) && AnnouncedOnce(s, n)
    && (s.nodes[n].announced <==> Stable(c.params[n], s.nodes[n]))
  }

  ghost predicate AllTold(c: Config, s: System) {
    forall n | n in c.params :: Told(c, s, n)
  }

  /** A handler announces nothing, and nothing gets stable. */
  ghost predicate Silent(p: Params, st0: State, st: State, out: set<Output>) {
    && st0.signatures.Keys <= p.membership.Keys && st.signatures.Keys <= p.membership.Keys
    && (forall o | o in out :: !o.Announce?)
    && st.announced == st0.announced && (Stable(p, st) <==> Stable(p, st0))
  }

  /** A handler announces the checkpoint, which has become stable. */
  ghost predicate Speaks(p: Params, st0: State, st: State, out: set<Output>) {
    && st.signatures.Keys <= p.membership.Keys && !st0.announced && st.announced && Stable(p, st)
    && exists chkp :: Announce(chkp) in out && forall o | o in out && o.Announce? :: o == Announce(chkp)
  }

  ghost predicate Tells(p: Params, st0: State, st: State, out: set<Output>) {
    Silent(p, st0, st, out) || Speaks(p, st0, st, out)
  }

  lemma EmitTells(c: Config, s: System, n: NodeId, st: State, out: set<Output>)
    requires Told(c, s, n) && Tells(c.params[n], s.nodes[n], st, out)
    ensures Told(c, Emit(s, n, st, out), n)
  {
    hide HaveStrongQuorum;
    var s' := Emit(s, n, st, out);
    if Silent(c.params[n], s.nodes[n], st, out) {
      assert s'.announcements == s.announcements;
      assert HasAnnounced(s', n) <==> HasAnnounced(s, n);
    } else {
      var chkp :| Announce(chkp) in out && forall o | o in out && o.Announce? :: o == Announce(chkp);
      assert s'.announcements == s.announcements + {(n, chkp)} by {
        assert Announce(chkp) in out && (n, Announce(chkp).chkp) == (n, chkp);
      }
      assert (n, chkp) in s'.announcements;
      assert !HasAnnounced(s, n);
      forall a | a in s'.announcements && a.0 == n ensures a == (n, chkp) {
        assert a in s.announcements ==> (n, a.1) in s.announcements;
      }
    }
  }

  lemma EmitTellsOthers(c: Config, s: System, n: NodeId, st: State, out: set<Output>, k: NodeId)
    requires Told(c, s, k) && k != n
    ensures Told(c, Emit(s, n, st, out), k)
  {
    hide HaveStrongQuorum;
    var s' := Emit(s, n, st, out);
    forall a: (NodeId, StableCheckpoint) | a.0 == k ensures a in s'.announcements <==> a in s.announcements {}
    assert HasAnnounced(s', k) <==> HasAnnounced(s, k) by {
      assert forall chkp :: (k, chkp) in s'.announcements <==> (k, chkp) in s.announcements;
    }
  }

  lemma EmitTellsAll(c: Config, s: System, n: NodeId, st: State, out: set<Output>)
    requires AllTold(c, s) && n in c.params && n in s.nodes && Tells(c.params[n], s.nodes[n], st, out)
    ensures AllTold(c, Emit(s, n, st, out))
  {
    hide Told, Tells;
    forall k | k in c.params ensures Told(c, Emit(s, n, st, out), k) {
      if k == n {
        EmitTells(c, s, n, st, out);
      } else {
        EmitTellsOthers(c, s, n, st, out, k);
      }
    }
  }

  lemma AnsweredTells(c: Config, s: System, step: Step)
    requires AllTold(c, s)
    ensures AllTold(c, Answered(s, step))
  {
    hide HaveStrongQuorum;
    forall n | n in c.params ensures Told(c, Answered(s, step), n) {
      assert Told(c, s, n);
      assert HasAnnounced(Answered(s, step), n) <==> HasAnnounced(s, n);
    }
  }

  lemma MoreIsStillStable(p: Params, st: State, st1: State)
    requires NonNegative(p.membership) && st.signatures.Keys <= st1.signatures.Keys <= p.membership.Keys
    requires Stable(p, st) && st1.appData == st.appData && st1.progress == st.progress
    ensures Stable(p, st1)
  {
    hide SetWeight;
    SetWeightMonotone(p.membership, st.signatures.Keys, st1.signatures.Keys);
  }

  /** Saving signatures and announcing if that makes the checkpoint stable. */
  lemma AnnouncingTells(p: Params, st: State, st1: State)
    requires NonNegative(p.membership) && st.signatures.Keys <= st1.signatures.Keys <= p.membership.Keys
    requires st1.appData == st.appData && st1.progress == st.progress && st1.announced == st.announced
    requires st.announced <==> Stable(p, st)
    ensures
      var (st2, out) := AnnounceIfStable(p, st1);
      Tells(p, st, st2, out)
  {
    hide HaveStrongQuorum;
    if Stable(p, st) {
      MoreIsStillStable(p, st, st1);
    }
    var (st2, out) := AnnounceIfStable(p, st1);
    if Stable(p, st1) && !st.announced {
      var chkp := StableCheckpoint(p.config.firstSn, Snapshot(p, st1), st1.signatures);
      assert Announce(chkp) in out && forall o | o in out && o.Announce? :: o == Announce(chkp);
      assert Stable(p, st2);
    }
  }

  /** What the handlers rely on. */
  ghost predicate Sane(p: Params, st: State) {
    && Valid(p.membership) && NonNegative(p.membership) && st.signatures.Keys <= p.membership.Keys
    && (st.hash.None? ==> st.signatures == map[]) && (st.hash.Some? ==> SnapshotReady(st))
    && (st.announced <==> Stable(p, st))
  }

  lemma NodeIsSane(c: Config, s: System, n: NodeId)
    requires c.Valid() && Inv(c, s) && AllTold(c, s) && n in c.params
    ensures n in s.nodes && Sane(c.params[n], s.nodes[n])
  {
    hide HaveStrongQuorum, Valid, NonNegative, RequestsInv, SigsInv, AnnouncementsInv, HasAnnounced, AnnouncedOnce;
    assert NodeInv(c, s, n) && Told(c, s, n);
  }

  lemma NothingSigned(p: Params, st: State)
    requires Sane(p, st) && st.hash.None?
    ensures !HaveStrongQuorum(p.membership, st.signatures.Keys)
  {
    hide Valid, NonNegative;
    QuorumBounds(p.membership);
    assert st.signatures.Keys == {};
  }

  lemma SnapshotTells(p: Params, st: State, data: Option<Bytes>, progress: map<ClientId, DeliveredPb>)
    requires Sane(p, st)
    ensures Silent(p, st, SaveAppData(p, st, data).0, SaveAppData(p, st, data).1)
    ensures Silent(p, st, SaveProgress(p, st, progress).0, SaveProgress(p, st, progress).1)
  {
    if st.hash.None? {
      NothingSigned(p, st);
    }
    hide HaveStrongQuorum, Valid, NonNegative;
  }

  lemma HashTells(p: Params, st: State, digest: Digest)
    requires Sane(p, st)
    ensures Silent(p, st, SaveHash(p, st, digest).0, SaveHash(p, st, digest).1)
  {
    hide HaveStrongQuorum, Valid, NonNegative;
  }

  lemma VerifyTells(p: Params, st: State, node: NodeId, valid: bool, sig: ChkpSig)
    requires Sane(p, st) && node in p.membership
    ensures Tells(p, st, SaveVerified(p, st, node, valid, sig).0, SaveVerified(p, st, node, valid, sig).1)
  {
    hide HaveStrongQuorum, Valid, NonNegative, Tells, AnnounceIfStable;
    if valid {
      AnnouncingTells(p, st, st.(signatures := st.signatures[node := sig]));
    } else {
      SameTells(p, st);
    }
  }

  lemma SameTells(p: Params, st: State)
    requires st.signatures.Keys <= p.membership.Keys
    ensures Tells(p, st, st, {})
  {}

  lemma ReceiveTells(p: Params, st: State, from: NodeId, msg: Msg)
    requires Sane(p, st)
    ensures Silent(p, st, Receive(p, st, from, msg).0, Receive(p, st, from, msg).1)
  {
    hide HaveStrongQuorum, Valid, NonNegative;
  }

  lemma HandlerTells(c: Config, s: System, step: Step)
    requires c.Valid() && Inv(c, s) && AllTold(c, s) && Enabled(c, s, step) && !step.FaultySend? && !step.SignDone?
    ensures
      var (st, out) := Handle(c, s, step);
      step.n in c.params && step.n in s.nodes && Tells(c.params[step.n], s.nodes[step.n], st, out)
  {
    assert step.VerifyDone? ==> RequestInv(c, s, step.n, step.request);
    var n := step.n;
    NodeIsSane(c, s, n);
    hide Sane, Silent, Speaks, SaveVerified, SaveAppData, SaveProgress, SaveHash, Receive;
    hide AllTold, RequestInv, SigsInv, AnnouncementsInv, NodeInv, HaveStrongQuorum, Valid, NonNegative;
    var p, st := c.params[n], s.nodes[n];
    match step {
      case AppData(_, data) => SnapshotTells(p, st, data, map[]);
      case Progress(_, progress) => SnapshotTells(p, st, None, progress);
      case Hashed(_, snapshot) => HashTells(p, st, c.hash(snapshot));
      case VerifyDone(_, r) => VerifyTells(p, st, r.node, VerifySig(r.claim, r.sig, r.node), r.sig);
      case Deliver(_, from, msg) => ReceiveTells(p, st, from, msg);
    }
  }

  lemma OwnPartTells(p: Params, st: State, sig: ChkpSig)
    requires Sane(p, st) && st.hash.Some? && p.ownId in p.membership
    ensures Tells(p, st, OwnSignaturePart(p, st, sig).0, OwnSignaturePart(p, st, sig).1)
  {
    hide HaveStrongQuorum, Valid, NonNegative, Tells, AnnounceIfStable;
    var st1 := st.(signatures := st.signatures[p.ownId := sig], sigReceived := st.sigReceived + {p.ownId});
    AnnouncingTells(p, st, st1);
    var (st2, out) := AnnounceIfStable(p, st1);
    MoreTells(p, st, st2, out, Broadcast(Msg(p.config.epochNr, p.config.firstSn, st.hash.value, sig)));
  }

  lemma OwnSignatureTells(c: Config, s: System, n: NodeId, claim: ChkpClaim)
    requires c.Valid() && Inv(c, s) && AllTold(c, s) && (n, claim) in s.signing
    ensures n in c.params && s.nodes[n].hash.Some? && s.nodes[n].signatures.Keys <= c.membership.Keys
    ensures AllTold(c, AfterOwnSignature(c, s, n, claim))
  {
    assert NodeInv(c, s, n);
    NodeIsSane(c, s, n);
    hide OwnSignaturePart, AllTold, Tells, NodeInv, RequestsInv, SigsInv, AnnouncementsInv, HaveStrongQuorum;
    OwnPartTells(c.params[n], s.nodes[n], Signed(n, claim));
    AnsweredTells(c, s, SignDone(n, claim));
    var (st, out) := OwnSignaturePart(c.params[n], s.nodes[n], Signed(n, claim));
    EmitTellsAll(c, Answered(s, SignDone(n, claim)), n, st, out);
  }

  lemma MoreTells(p: Params, st0: State, st: State, out: set<Output>, o: Output)
    requires Tells(p, st0, st, out) && !o.Announce?
    ensures Tells(p, st0, st, out + {o})
  {
    if Speaks(p, st0, st, out) {
      var chkp :| Announce(chkp) in out && forall o | o in out && o.Announce? :: o == Announce(chkp);
      assert Announce(chkp) in out + {o};
    }
  }

  lemma PendingTells(c: Config, s: System, n: NodeId)
    requires c.WellFormed() && Inv(c, s) && AllTold(c, s) && n in c.params && s.nodes[n].hash.Some?
    ensures s.nodes[n].signatures.Keys <= c.membership.Keys
    ensures
      var (st, out) := ReceiveAll(c.params[n], s.nodes[n], s.nodes[n].pending);
      AllTold(c, Emit(s, n, st.(pending := map[]), out))
  {
    hide HaveStrongQuorum, RequestInv, SigsInv, AnnouncementsInv;
    assert NodeInv(c, s, n) && Told(c, s, n);
    var (st, out) := ReceiveAll(c.params[n], s.nodes[n], s.nodes[n].pending);
    assert Silent(c.params[n], s.nodes[n], st.(pending := map[]), out);
    EmitTellsAll(c, s, n, st.(pending := map[]), out);
  }

  lemma SignDoneTells(c: Config, s: System, n: NodeId, claim: ChkpClaim)
    requires c.Valid() && Inv(c, s) && AllTold(c, s) && (n, claim) in s.signing
    ensures AllTold(c, Next(c, s, SignDone(n, claim)))
  {
    hide AllTold, Inv, ReceiveAll, Next;
    OwnSignatureTells(c, s, n, claim);
    InNodes(c, s, n);
    OwnSignatureKeepsInv(c, s, n, claim);
    SignDoneSplits(c, s, n, claim);
    PendingTells(c, AfterOwnSignature(c, s, n, claim), n);
  }

  lemma InNodes(c: Config, s: System, n: NodeId)
    requires Inv(c, s) && n in c.params
    ensures n in s.nodes
  {}

  lemma NextTells(c: Config, s: System, step: Step)
    requires c.Valid() && Inv(c, s) && AllTold(c, s)
    ensures AllTold(c, Next(c, s, step))
  {
    hide AllTold, Tells, Handle, Inv;
    if Enabled(c, s, step) {
      if step.FaultySend? {
        NetTells(c, s, s.net + {(step.n, step.msg)});
      } else if step.SignDone? {
        SignDoneTells(c, s, step.n, step.claim);
      } else {
        HandlerTells(c, s, step);
        AnsweredTells(c, s, step);
        var (st, out) := Handle(c, s, step);
        EmitTellsAll(c, Answered(s, step), step.n, st, out);
      }
    }
  }

  lemma NetTells(c: Config, s: System, net: set<(NodeId, Msg)>)
    requires AllTold(c, s)
    ensures AllTold(c, s.(net := net))
  {
    hide HaveStrongQuorum;
    forall n | n in c.params ensures Told(c, s.(net := net), n) {
      assert Told(c, s, n);
      assert HasAnnounced(s.(net := net), n) <==> HasAnnounced(s, n);
    }
  }

  lemma InitTells(c: Config)
    requires c.Valid()
    ensures AllTold(c, Init(c))
  {
    hide SetWeight, Valid;
    forall n | n in c.params ensures Told(c, Init(c), n) {
      assert !HasAnnounced(Init(c), n);
    }
  }

  lemma {:induction false} RunTells(c: Config, steps: seq<Step>)
    requires c.Valid()
    ensures AllTold(c, Run(c, steps))
    decreases |steps|
  {
    hide Next, AllTold, Init;
    if steps == [] {
      InitTells(c);
    } else {
      RunTells(c, steps[..|steps| - 1]);
      NextTells(c, Run(c, steps[..|steps| - 1]), steps[|steps| - 1]);
    }
  }

  /** In every run, a correct node has announced exactly if its snapshot is complete and the signatures it has collected
      are a strong quorum. It has announced once then, and that is its own snapshot. */
  lemma AnnouncesIff(c: Config, steps: seq<Step>, n: NodeId)
    requires c.Valid() && n in c.params
    ensures
      var s := Run(c, steps);
      && n in s.nodes && s.nodes[n].signatures.Keys <= c.membership.Keys && AnnouncedOnce(s, n)
      && (HasAnnounced(s, n) <==>
            SnapshotReady(s.nodes[n]) && HaveStrongQuorum(c.membership, s.nodes[n].signatures.Keys))
      && (forall chkp | (n, chkp) in s.announcements ::
            SnapshotReady(s.nodes[n]) && chkp.snapshot == Snapshot(c.params[n], s.nodes[n]))
  {
    hide HaveStrongQuorum, SetWeight;
    var s := Run(c, steps);
    RunTells(c, steps);
    assert Told(c, s, n);
    forall chkp | (n, chkp) in s.announcements
      ensures SnapshotReady(s.nodes[n]) && chkp.snapshot == Snapshot(c.params[n], s.nodes[n])
    {
      assert AnnouncementInv(c, s, (n, chkp).0, (n, chkp).1);
    }
  }

  // ---------------------------------------------------------------- nothing gets lost

  /** The message that a node broadcasts. */
  ghost function OwnMsg(p: Params, st: State, n: NodeId): Msg
    requires st.hash.Some?
  {
    Msg(p.config.epochNr, p.config.firstSn, st.hash.value, Signed(n, OwnClaim(p, st)))
  }

  /** Messages of correct nodes are their own broadcasts. */
  ghost predicate NetInv(c: Config, s: System) {
    forall m | m in s.net && m.0 in c.params ::
      && m.0 in s.nodes && s.nodes[m.0].hash.Some?
      && m.1 == OwnMsg(c.params[m.0], s.nodes[m.0], m.0)
  }

  /** The request to verify the signature of a correct node for the node's own claim. */
  ghost predicate Checking(c: Config, s: System, n: NodeId, k: NodeId)
    requires n in c.params && n in s.nodes && s.nodes[n].hash.Some?
  {
    var claim := OwnClaim(c.params[n], s.nodes[n]);
    (n, VerifyRequest(claim, Signed(k, claim), k)) in s.verifying
  }

  /** Whatever the node has to do is done or requested. */
  ghost predicate Owed(c: Config, s: System, n: NodeId)
    requires n in c.params && n in s.nodes
  {
    var p, st := c.params[n], s.nodes[n];
    && (SnapshotReady(st) && st.hash.None? ==> (n, Snapshot(p, st)) in s.hashing)
    && (st.hash.Some? && n !in st.signatures ==> (n, OwnClaim(p, st)) in s.signing)
    && (n in st.signatures ==> st.hash.Some? && (n, OwnMsg(p, st, n)) in s.net)
    && (forall k | k in st.pending :: (k, st.pending[k]) in s.net)
    && (st.hash.None? ==> st.sigReceived == {})
    && (forall k | k in st.sigReceived && k in c.params :: k in st.signatures || Checking(c, s, n, k))
    && (forall m | m in s.net && m.0 == n :: n in st.sigReceived)
    && (forall r | r in s.verifying && r.0 == n :: r.1.VerifyRequest? && r.1.node != n)
  }

  ghost predicate AllOwed(c: Config, s: System) {
    && NetInv(c, s) && s.nodes.Keys == c.params.Keys && forall n | n in c.params :: Owed(c, s, n)
  }

  /** Other nodes' steps take nothing away. */
  lemma OthersOwe(c: Config, s: System, step: Step, st: State, out: set<Output>, k: NodeId)
    requires k in c.params && k in s.nodes && Owed(c, s, k) && k != step.n
    ensures Owed(c, Emit(Answered(s, step), step.n, st, out), k)
  {
    var s' := Emit(Answered(s, step), step.n, st, out);
    assert s.net <= s'.net;
    forall h | h in s.hashing && h.0 == k ensures h in s'.hashing {}
    forall g | g in s.signing && g.0 == k ensures g in s'.signing {}
    forall r | r in s.verifying && r.0 == k ensures r in s'.verifying {}
    forall j | j in s.nodes[k].sigReceived && j in c.params
      ensures j in s.nodes[k].signatures || Checking(c, s', k, j)
    {
      assert j in s.nodes[k].signatures || Checking(c, s, k, j);
    }
  }

  lemma SnapshotOwed(c: Config, s: System, n: NodeId, data: Option<Bytes>, progress: map<ClientId, DeliveredPb>)
    requires n in c.params && n in s.nodes && NodeInv(c, s, n) && Owed(c, s, n)
    ensures
      var (st, out) := SaveAppData(c.params[n], s.nodes[n], data);
      Owed(c, Emit(s, n, st, out), n)
    ensures
      var (st, out) := SaveProgress(c.params[n], s.nodes[n], progress);
      Owed(c, Emit(s, n, st, out), n)
  {
    hide SignedBy;
    var (st, out) := SaveAppData(c.params[n], s.nodes[n], data);
    KeepsChecking(c, s, Emit(s, n, st, out), n);
    var (st', out') := SaveProgress(c.params[n], s.nodes[n], progress);
    KeepsChecking(c, s, Emit(s, n, st', out'), n);
  }

  lemma KeepsChecking(c: Config, s: System, s': System, n: NodeId)
    requires n in c.params && n in s.nodes && n in s'.nodes && Owed(c, s, n) && s.verifying <= s'.verifying
    requires s'.nodes[n].hash == s.nodes[n].hash
    requires s'.nodes[n].sigReceived == s.nodes[n].sigReceived
    requires s.nodes[n].signatures.Keys <= s'.nodes[n].signatures.Keys
    ensures forall k | k in s'.nodes[n].sigReceived && k in c.params ::
      k in s'.nodes[n].signatures || (s'.nodes[n].hash.Some? && Checking(c, s', n, k))
  {
    forall k | k in s'.nodes[n].sigReceived && k in c.params
      ensures k in s'.nodes[n].signatures || (s'.nodes[n].hash.Some? && Checking(c, s', n, k))
    {
      assert k in s.nodes[n].signatures || Checking(c, s, n, k);
    }
  }

  lemma HashOwed(c: Config, s: System, n: NodeId, snapshot: StateSnapshot)
    requires n in c.params && n in s.nodes && NodeInv(c, s, n) && Owed(c, s, n) && (n, snapshot) in s.hashing
    ensures
      var (st, out) := SaveHash(c.params[n], s.nodes[n], c.hash(snapshot));
      Owed(c, Emit(Answered(s, Hashed(n, snapshot)), n, st, out), n)
  {
    hide SignedBy;
    var (st, out) := SaveHash(c.params[n], s.nodes[n], c.hash(snapshot));
    assert SignRequest(OwnClaim(c.params[n], st)) in out;
    assert s.nodes[n].hash.None?;
  }

  lemma VerifyOwed(c: Config, s: System, n: NodeId, r: Output)
    requires c.WellFormed() && n in c.params && n in s.nodes && NodeInv(c, s, n) && Owed(c, s, n)
    requires RequestInv(c, s, n, r) && (n, r) in s.verifying
    ensures
      var (st, out) := SaveVerified(c.params[n], s.nodes[n], r.node, VerifySig(r.claim, r.sig, r.node), r.sig);
      Owed(c, Emit(Answered(s, VerifyDone(n, r)), n, st, out), n)
  {
    hide HaveStrongQuorum, SnapshotReady;
    var valid := VerifySig(r.claim, r.sig, r.node);
    var (st, out) := SaveVerified(c.params[n], s.nodes[n], r.node, valid, r.sig);
    var s' := Emit(Answered(s, VerifyDone(n, r)), n, st, out);
    assert st == s.nodes[n].(signatures := st.signatures, announced := st.announced);
    forall k | k in st.sigReceived && k in c.params ensures k in st.signatures || Checking(c, s', n, k) {
      assert k in s.nodes[n].signatures || Checking(c, s, n, k);
    }
  }

  /** What receiving a message comes to: nothing, keeping it for later, or asking for its signature to be verified. */
  lemma ReceiveMeans(p: Params, st: State, from: NodeId, msg: Msg)
    requires st.signatures.Keys <= p.membership.Keys
    ensures
      var (st1, out) := Receive(p, st, from, msg);
      var requests := set o | o in out && !o.EpochProgress?;
      || (st1 == st && requests == {})
      || (st1 == st.(pending := st.pending[from := msg]) && st.hash.None? && requests == {})
      || (&& st1 == st.(sigReceived := st.sigReceived + {from}) && from !in st.sigReceived && st.hash == Some(msg.hash)
          && Relevant(p, from, msg) && requests == {VerifyRequest(OwnClaim(p, st), msg.sig, from)})
  {
    hide HaveStrongQuorum;
  }

  lemma ReceiveOwed(c: Config, s: System, n: NodeId, from: NodeId, msg: Msg)
    requires c.WellFormed() && n in c.params && n in s.nodes && Owed(c, s, n) && NetInv(c, s)
    requires (from, msg) in s.net && s.nodes[n].signatures.Keys <= c.membership.Keys
    ensures
      var (st, out) := Receive(c.params[n], s.nodes[n], from, msg);
      Owed(c, Emit(s, n, st, out), n)
  {
    hide Receive;
    var p, st0 := c.params[n], s.nodes[n];
    var (st, out) := Receive(p, st0, from, msg);
    var s' := Emit(s, n, st, out);
    ReceiveMeans(p, st0, from, msg);
    var requests := set o | o in out && !o.EpochProgress?;
    forall o | o in out ensures o.EpochProgress? || o in requests {}
    assert s'.net == s.net && s'.hashing == s.hashing && s'.signing == s.signing;
    forall k | k in st.sigReceived && k in c.params ensures k in st.signatures || Checking(c, s', n, k) {
      if k in st0.sigReceived {
        assert k in st0.signatures || Checking(c, s, n, k);
      } else {
        assert k == from && msg == OwnMsg(c.params[(k, msg).0], s.nodes[k], k);
        assert VerifyRequest(OwnClaim(p, st0), msg.sig, from) in requests;
        assert msg.sig == Signed(k, OwnClaim(p, st0));
      }
    }
  }

  lemma OwnPartOwed(c: Config, s: System, n: NodeId, claim: ChkpClaim)
    requires c.WellFormed() && n in c.params && n in s.nodes && NodeInv(c, s, n) && Owed(c, s, n)
    requires s.nodes[n].hash.Some? && claim == OwnClaim(c.params[n], s.nodes[n])
    requires s.nodes[n].signatures.Keys <= c.membership.Keys
    ensures Owed(c, AfterOwnSignature(c, s, n, claim), n)
  {
    hide HaveStrongQuorum, SignedBy;
    var p, st0 := c.params[n], s.nodes[n];
    var (st, out) := OwnSignaturePart(p, st0, Signed(n, claim));
    var s' := AfterOwnSignature(c, s, n, claim);
    assert Broadcast(OwnMsg(p, st, n)) in out;
    forall k | k in st.sigReceived && k in c.params ensures k in st.signatures || Checking(c, s', n, k) {
      assert k == n || k in st0.signatures || Checking(c, s, n, k);
    }
  }

  lemma PendingOwed(c: Config, s: System, n: NodeId)
    requires c.WellFormed() && n in c.params && n in s.nodes && NodeInv(c, s, n) && Owed(c, s, n) && NetInv(c, s)
    requires s.nodes[n].hash.Some? && s.nodes[n].signatures.Keys <= c.membership.Keys
    ensures
      var (st, out) := ReceiveAll(c.params[n], s.nodes[n], s.nodes[n].pending);
      Owed(c, Emit(s, n, st.(pending := map[]), out), n)
  {
    hide HaveStrongQuorum, SignedBy;
    var p, st0 := c.params[n], s.nodes[n];
    var (st, out) := ReceiveAll(p, st0, st0.pending);
    var s' := Emit(s, n, st.(pending := map[]), out);
    forall k | k in st.sigReceived && k in c.params ensures k in st.signatures || Checking(c, s', n, k) {
      if k in st0.sigReceived {
        assert k in st0.signatures || Checking(c, s, n, k);
      } else {
        var msg := st0.pending[k];
        assert (k, msg) in s.net;
        assert msg == OwnMsg(c.params[(k, msg).0], s.nodes[k], k);
        assert VerifyRequest(OwnClaim(p, st0), msg.sig, k) in out;
        assert msg.sig == Signed(k, OwnClaim(p, st0));
      }
    }
    forall r | r in s'.verifying && r.0 == n ensures r.1.VerifyRequest? && r.1.node != n {
      if r !in s.verifying {
        assert r.1 in Verifications(p, st0, st0.pending);
        var k :| k in ToVerify(p, st0, st0.pending) && r.1 == VerifyRequest(OwnClaim(p, st0), st0.pending[k].sig, k);
        assert (k, st0.pending[k]) in s.net;
      }
    }
  }

  // ---------------------------------------------------------------- over runs

  ghost predicate OnlyOwnMessages(c: Config, n: NodeId, st: State, out: set<Output>)
    requires n in c.params
  {
    forall o | o in out && o.Broadcast? :: st.hash.Some? && o.msg == OwnMsg(c.params[n], st, n)
  }

  lemma EmitNet(c: Config, s: System, n: NodeId, st: State, out: set<Output>)
    requires NetInv(c, s) && n in c.params && n in s.nodes && OnlyOwnMessages(c, n, st, out)
    requires s.nodes[n].hash.Some? ==> st.hash == s.nodes[n].hash
    ensures NetInv(c, Emit(s, n, st, out))
  {
    var s' := Emit(s, n, st, out);
    forall m | m in s'.net && m.0 in c.params
      ensures
        && m.0 in s'.nodes && s'.nodes[m.0].hash.Some?
        && m.1 == OwnMsg(c.params[m.0], s'.nodes[m.0], m.0)
    {
      if m in s.net {
        assert m.0 in s.nodes && s.nodes[m.0].hash.Some?;
      }
    }
  }

  lemma EmitOwed(c: Config, s: System, step: Step, st: State, out: set<Output>)
    requires AllOwed(c, s) && step.n in c.params && OnlyOwnMessages(c, step.n, st, out)
    requires s.nodes[step.n].hash.Some? ==> st.hash == s.nodes[step.n].hash
    requires Owed(c, Emit(Answered(s, step), step.n, st, out), step.n)
    ensures AllOwed(c, Emit(Answered(s, step), step.n, st, out))
  {
    hide Owed, OnlyOwnMessages, NetInv;
    AnsweredNet(c, s, step);
    EmitNet(c, Answered(s, step), step.n, st, out);
    forall k | k in c.params ensures Owed(c, Emit(Answered(s, step), step.n, st, out), k) {
      if k != step.n {
        OthersOwe(c, s, step, st, out, k);
      }
    }
  }

  lemma AnsweredNet(c: Config, s: System, step: Step)
    requires NetInv(c, s)
    ensures NetInv(c, Answered(s, step)) && Answered(s, step).nodes == s.nodes
  {}

  lemma HandlerOwed(c: Config, s: System, step: Step)
    requires c.WellFormed() && Inv(c, s) && AllOwed(c, s) && Enabled(c, s, step)
    requires !step.FaultySend? && !step.SignDone?
    ensures
      var (st, out) := Handle(c, s, step);
      && step.n in c.params && step.n in s.nodes && OnlyOwnMessages(c, step.n, st, out)
      && (s.nodes[step.n].hash.Some? ==> st.hash == s.nodes[step.n].hash)
      && Owed(c, Emit(Answered(s, step), step.n, st, out), step.n)
  {
    var n := step.n;
    assert step.VerifyDone? ==> RequestInv(c, s, n, step.request);
    assert NodeInv(c, s, n) && Owed(c, s, n);
    SignersAreMembers(c, s, n);
    HandlerSends(c, s, step);
    hide Owed, OnlyOwnMessages, SaveVerified, SaveAppData, SaveProgress, SaveHash, Receive, NodeInv, NetInv, Emit;
    match step {
      case AppData(_, data) => SnapshotOwed(c, s, n, data, map[]);
      case Progress(_, progress) => SnapshotOwed(c, s, n, None, progress);
      case Hashed(_, snapshot) => HashOwed(c, s, n, snapshot);
      case VerifyDone(_, r) => VerifyOwed(c, s, n, r);
      case Deliver(_, from, msg) => ReceiveOwed(c, s, n, from, msg);
    }
  }

  lemma SignersAreMembers(c: Config, s: System, n: NodeId)
    requires c.WellFormed() && n in c.params && n in s.nodes && NodeInv(c, s, n)
    ensures s.nodes[n].signatures.Keys <= c.membership.Keys
  {}

  lemma HandlerSends(c: Config, s: System, step: Step)
    requires c.WellFormed() && Inv(c, s) && Enabled(c, s, step) && !step.FaultySend? && !step.SignDone?
    ensures
      var (st, out) := Handle(c, s, step);
      && step.n in c.params && step.n in s.nodes && OnlyOwnMessages(c, step.n, st, out)
      && (s.nodes[step.n].hash.Some? ==> st.hash == s.nodes[step.n].hash)
  {
    hide HaveStrongQuorum, SignedBy, SigsInv, AnnouncementsInv;
    assert step.VerifyDone? ==> RequestInv(c, s, step.n, step.request);
    assert NodeInv(c, s, step.n);
  }

  lemma OwnSignatureOwed(c: Config, s: System, n: NodeId, claim: ChkpClaim)
    requires c.WellFormed() && Inv(c, s) && AllOwed(c, s) && (n, claim) in s.signing
    ensures n in c.params && s.nodes[n].hash.Some? && s.nodes[n].signatures.Keys <= c.membership.Keys
    ensures AllOwed(c, AfterOwnSignature(c, s, n, claim))
  {
    assert NodeInv(c, s, n) && Owed(c, s, n);
    SignersAreMembers(c, s, n);
    OwnPartSends(c, s, n, claim);
    hide Owed, OnlyOwnMessages, OwnSignaturePart, NodeInv, NetInv, RequestsInv, SigsInv, AnnouncementsInv;
    OwnPartOwed(c, s, n, claim);
    var (st, out) := OwnSignaturePart(c.params[n], s.nodes[n], Signed(n, claim));
    EmitOwed(c, s, SignDone(n, claim), st, out);
  }

  lemma OwnPartSends(c: Config, s: System, n: NodeId, claim: ChkpClaim)
    requires c.WellFormed() && n in c.params && n in s.nodes && s.nodes[n].signatures.Keys <= c.membership.Keys
    requires s.nodes[n].hash.Some? && claim == OwnClaim(c.params[n], s.nodes[n])
    ensures
      var (st, out) := OwnSignaturePart(c.params[n], s.nodes[n], Signed(n, claim));
      OnlyOwnMessages(c, n, st, out) && st.hash == s.nodes[n].hash
  {
    hide HaveStrongQuorum;
  }

  lemma SignDoneOwed(c: Config, s: System, n: NodeId, claim: ChkpClaim)
    requires c.WellFormed() && Inv(c, s) && AllOwed(c, s) && (n, claim) in s.signing
    ensures AllOwed(c, Next(c, s, SignDone(n, claim)))
  {
    hide AllOwed, Inv, ReceiveAll, Next;
    OwnSignatureOwed(c, s, n, claim);
    InNodes(c, s, n);
    OwnSignatureKeepsInv(c, s, n, claim);
    SignDoneSplits(c, s, n, claim);
    PendingStepOwed(c, AfterOwnSignature(c, s, n, claim), n);
  }

  lemma PendingSends(c: Config, n: NodeId, st0: State)
    requires c.WellFormed() && n in c.params && st0.signatures.Keys <= c.membership.Keys && st0.hash.Some?
    ensures
      var (st, out) := ReceiveAll(c.params[n], st0, st0.pending);
      OnlyOwnMessages(c, n, st.(pending := map[]), out) && st.hash == st0.hash
  {
    hide HaveStrongQuorum;
  }

  lemma PendingStepOwed(c: Config, s: System, n: NodeId)
    requires c.WellFormed() && Inv(c, s) && AllOwed(c, s) && n in c.params && n in s.nodes && s.nodes[n].hash.Some?
    ensures s.nodes[n].signatures.Keys <= c.membership.Keys
    ensures
      var (st, out) := ReceiveAll(c.params[n], s.nodes[n], s.nodes[n].pending);
      AllOwed(c, Emit(s, n, st.(pending := map[]), out))
  {
    assert NodeInv(c, s, n);
    hide Owed, OnlyOwnMessages, NodeInv, ReceiveAll, NetInv, Inv;
    SignersAreMembers(c, s, n);
    PendingOwed(c, s, n);
    PendingSends(c, n, s.nodes[n]);
    var (st, out) := ReceiveAll(c.params[n], s.nodes[n], s.nodes[n].pending);
    EmitOwed(c, s, AppData(n, None), st.(pending := map[]), out);
  }

  lemma FaultyOwed(c: Config, s: System, n: NodeId, msg: Msg)
    requires c.WellFormed() && AllOwed(c, s) && n in c.faulty
    ensures AllOwed(c, s.(net := s.net + {(n, msg)}))
  {
    hide Owed;
    var s' := s.(net := s.net + {(n, msg)});
    forall k | k in c.params ensures Owed(c, s', k) {
      FaultyOwedOne(c, s, n, msg, k);
    }
  }

  lemma FaultyOwedOne(c: Config, s: System, n: NodeId, msg: Msg, k: NodeId)
    requires k in c.params && k in s.nodes && Owed(c, s, k) && k != n
    ensures Owed(c, s.(net := s.net + {(n, msg)}), k)
  {
    hide SnapshotReady;
    var s' := s.(net := s.net + {(n, msg)});
    KeepsChecking(c, s, s', k);
  }

  lemma NextOwed(c: Config, s: System, step: Step)
    requires c.WellFormed() && Inv(c, s) && AllOwed(c, s)
    ensures AllOwed(c, Next(c, s, step))
  {
    hide AllOwed, Handle, Inv, OnlyOwnMessages, Owed;
    if Enabled(c, s, step) {
      if step.FaultySend? {
        FaultyOwed(c, s, step.n, step.msg);
      } else if step.SignDone? {
        SignDoneOwed(c, s, step.n, step.claim);
      } else {
        HandlerOwed(c, s, step);
        var (st, out) := Handle(c, s, step);
        EmitOwed(c, s, step, st, out);
      }
    }
  }

  lemma {:induction false} RunOwed(c: Config, steps: seq<Step>)
    requires c.Valid()
    ensures AllOwed(c, Run(c, steps))
    decreases |steps|
  {
    hide Next, AllOwed, Init;
    if steps == [] {
      InitOwed(c);
    } else {
      RunOwed(c, steps[..|steps| - 1]);
      NextOwed(c, Run(c, steps[..|steps| - 1]), steps[|steps| - 1]);
    }
  }

  lemma InitOwed(c: Config)
    ensures AllOwed(c, Init(c))
  {}

  // ---------------------------------------------------------------- messages are taken in

  /** The message of node k has had its effect: it does not concern this checkpoint or another hash, the checkpoint is
      stable without it, its signature is being or has been verified, or it is kept until the own signature is made. */
  ghost predicate Takes(p: Params, st: State, k: NodeId, msg: Msg) {
    || !Relevant(p, k, msg)
    || (st.signatures.Keys <= p.membership.Keys && Stable(p, st))
    || (st.hash.Some? && st.hash.value != msg.hash)
    || k in st.sigReceived
    || (k in st.pending && st.pending[k] == msg && p.ownId !in st.signatures)
  }

  lemma SnapshotTakes(
      p: Params, st: State, k: NodeId, msg: Msg, data: Option<Bytes>, progress: map<ClientId, DeliveredPb>)
    requires Sane(p, st) && Takes(p, st, k, msg)
    ensures Takes(p, SaveAppData(p, st, data).0, k, msg) && Takes(p, SaveProgress(p, st, progress).0, k, msg)
  {
    hide HaveStrongQuorum, Valid, NonNegative;
  }

  lemma HashTakes(p: Params, st: State, k: NodeId, msg: Msg, digest: Digest)
    requires Sane(p, st) && Takes(p, st, k, msg) && st.hash.None?
    ensures Takes(p, SaveHash(p, st, digest).0, k, msg)
  {
    hide HaveStrongQuorum, Valid, NonNegative;
  }

  lemma AnnouncedTakes(p: Params, st: State, st1: State, k: NodeId, msg: Msg)
    requires Sane(p, st) && Takes(p, st, k, msg) && st.signatures.Keys <= st1.signatures.Keys <= p.membership.Keys
    requires st1 == st.(signatures := st1.signatures, announced := st1.announced)
    requires p.ownId in st1.signatures ==> p.ownId in st.signatures
    ensures Takes(p, st1, k, msg)
  {
    if Stable(p, st) {
      MoreIsStillStable(p, st, st1);
    }
    hide HaveStrongQuorum, Valid, NonNegative;
  }

  lemma VerifyTakes(p: Params, st: State, k: NodeId, msg: Msg, node: NodeId, valid: bool, sig: ChkpSig)
    requires Sane(p, st) && Takes(p, st, k, msg) && node in p.membership && node != p.ownId
    ensures Takes(p, SaveVerified(p, st, node, valid, sig).0, k, msg)
  {
    hide Sane, Takes, HaveStrongQuorum;
    if valid {
      assert st.signatures.Keys <= p.membership.Keys by {
        SignedByMembers(p, st);
      }
      AnnouncedTakes(p, st, SaveVerified(p, st, node, valid, sig).0, k, msg);
    }
  }

  lemma SignedByMembers(p: Params, st: State)
    requires Sane(p, st)
    ensures st.signatures.Keys <= p.membership.Keys && NonNegative(p.membership)
  {}

  lemma ReceiveTakes(p: Params, st: State, k: NodeId, msg: Msg, from: NodeId, other: Msg)
    requires Sane(p, st) && (from == k ==> other == msg) && (Takes(p, st, k, msg) || from == k)
    requires st.hash.None? ==> st.signatures == map[]
    ensures Takes(p, Receive(p, st, from, other).0, k, msg)
  {
    hide HaveStrongQuorum, Valid, NonNegative;
  }

  /** Once the own signature is made, what was kept is taken up. */
  lemma PendingTakes(p: Params, st: State, k: NodeId, msg: Msg)
    requires st.signatures.Keys <= p.membership.Keys && st.hash.Some?
    requires Takes(p, st, k, msg) || (k in st.pending && st.pending[k] == msg)
    ensures Takes(p, ReceiveAll(p, st, st.pending).0.(pending := map[]), k, msg)
  {
    hide HaveStrongQuorum;
    if k in st.pending && st.pending[k] == msg && Relevant(p, k, msg) && WorthVerifying(p, st, k, msg) {
      assert k in ToVerify(p, st, st.pending);
    }
  }

  lemma OwnTakes(p: Params, st: State, k: NodeId, msg: Msg, sig: ChkpSig)
    requires Sane(p, st) && Takes(p, st, k, msg) && st.hash.Some? && p.ownId in p.membership
    ensures Takes(p, SaveOwnSignature(p, st, sig).0, k, msg)
  {
    hide HaveStrongQuorum, Valid, NonNegative, ReceiveAll;
    var st1 := st.(signatures := st.signatures[p.ownId := sig], sigReceived := st.sigReceived + {p.ownId});
    var st2 := AnnounceIfStable(p, st1).0;
    if Stable(p, st) {
      MoreIsStillStable(p, st, st2);
    }
    PendingTakes(p, st2, k, msg);
    assert SaveOwnSignature(p, st, sig).0 == ReceiveAll(p, st2, st2.pending).0.(pending := map[]);
  }

  ghost predicate TakenIn(c: Config, s: System, n: NodeId, k: NodeId) {
    && n in c.params && n in s.nodes && k in c.params && k in s.nodes && s.nodes[k].hash.Some?
    && Takes(c.params[n], s.nodes[n], k, OwnMsg(c.params[k], s.nodes[k], k))
  }

  lemma HandlerTakes(c: Config, s: System, step: Step, k: NodeId)
    requires c.Valid() && Inv(c, s) && AllTold(c, s) && AllOwed(c, s) && Enabled(c, s, step) && !step.FaultySend?
    requires k in c.params && k in s.nodes && s.nodes[k].hash.Some?
    requires TakenIn(c, s, step.n, k) || (step.Deliver? && step.from == k)
    ensures step.n in c.params
    ensures
      var (st, out) := Handle(c, s, step);
      Takes(c.params[step.n], st, k, OwnMsg(c.params[k], s.nodes[k], k))
  {
    assert step.VerifyDone? ==> RequestInv(c, s, step.n, step.request);
    var n, msg := step.n, OwnMsg(c.params[k], s.nodes[k], k);
    NodeIsSane(c, s, n);
    assert NodeInv(c, s, n) && Owed(c, s, n);
    var p, st := c.params[n], s.nodes[n];
    assert step.Deliver? && step.from == k ==> step.msg == msg by {
      assert step.Deliver? ==> (step.from, step.msg) in s.net;
    }
    assert step.VerifyDone? ==> step.request.node != n by {
      assert step.VerifyDone? ==> (n, step.request) in s.verifying;
    }
    assert step.Hashed? ==> st.hash.None?;
    hide Sane, Takes, SaveVerified, SaveAppData, SaveProgress, SaveHash, Receive, SaveOwnSignature, Owed, NodeInv;
    hide AllTold, AllOwed, SigsInv, AnnouncementsInv, HaveStrongQuorum, Valid, NonNegative, RequestInv;
    match step {
      case AppData(_, data) => SnapshotTakes(p, st, k, msg, data, map[]);
      case Progress(_, progress) => SnapshotTakes(p, st, k, msg, None, progress);
      case Hashed(_, snapshot) => HashTakes(p, st, k, msg, c.hash(snapshot));
      case SignDone(_, claim) => OwnTakes(p, st, k, msg, Signed(n, claim));
      case VerifyDone(_, r) => VerifyTakes(p, st, k, msg, r.node, VerifySig(r.claim, r.sig, r.node), r.sig);
      case Deliver(_, from, other) =>
        NoSignaturesYet(p, st);
        ReceiveTakes(p, st, k, msg, from, other);
    }
  }

  lemma NoSignaturesYet(p: Params, st: State)
    requires Sane(p, st)
    ensures st.hash.None? ==> st.signatures == map[]
  {}

  lemma HashStays(c: Config, s: System, step: Step, k: NodeId)
    requires c.WellFormed() && Inv(c, s) && k in c.params && k in s.nodes && s.nodes[k].hash.Some?
    ensures k in Next(c, s, step).nodes && Next(c, s, step).nodes[k].hash == s.nodes[k].hash
  {
    hide Inv, OnlyOwnMessages, Handle;
    if Enabled(c, s, step) && !step.FaultySend? && step.n == k {
      if step.SignDone? {
        SigningKeepsHash(c, s, step);
      } else {
        HandlerSends(c, s, step);
      }
    }
  }

  lemma SigningKeepsHash(c: Config, s: System, step: Step)
    requires c.WellFormed() && Inv(c, s) && Enabled(c, s, step) && step.SignDone?
    ensures step.n in c.params && step.n in s.nodes && Handle(c, s, step).0.hash == s.nodes[step.n].hash
  {
    assert NodeInv(c, s, step.n);
    hide NodeInv, SigsInv, AnnouncementsInv, HaveStrongQuorum;
  }

  lemma NextTakes(c: Config, s: System, step: Step, n: NodeId, k: NodeId)
    requires c.Valid() && Inv(c, s) && AllTold(c, s) && AllOwed(c, s)
    requires n in c.params && n in s.nodes && k in c.params && k in s.nodes && s.nodes[k].hash.Some?
    requires TakenIn(c, s, n, k) || (Enabled(c, s, step) && step.Deliver? && step.n == n && step.from == k)
    ensures TakenIn(c, Next(c, s, step), n, k)
  {
    hide Takes, Inv, AllTold, AllOwed, Handle;
    HashStays(c, s, step, k);
    if Enabled(c, s, step) && !step.FaultySend? && step.n == n {
      HandlerTakes(c, s, step, k);
    }
  }

  /** The message was handed to node n by step i. */
  ghost predicate ReceivedAt(c: Config, steps: seq<Step>, i: nat, n: NodeId, from: NodeId, msg: Msg)
    requires c.Valid()
  {
    i < |steps| && steps[i] == Deliver(n, from, msg) && (from, msg) in Run(c, steps[..i]).net
  }

  lemma StaysTakenIn(c: Config, steps: seq<Step>, last: Step, n: NodeId, k: NodeId)
    requires c.Valid() && TakenIn(c, Run(c, steps), n, k)
    ensures TakenIn(c, Next(c, Run(c, steps), last), n, k)
  {
    hide Run, Next, Inv, AllTold, AllOwed, Takes, SetWeight, Valid, NonNegative;
    RunTells(c, steps);
    RunOwed(c, steps);
    NextTakes(c, Run(c, steps), last, n, k);
  }

  lemma NowTakenIn(c: Config, steps: seq<Step>, n: NodeId, k: NodeId, msg: Msg)
    requires c.Valid() && n in c.params && k in c.params && (k, msg) in Run(c, steps).net
    ensures TakenIn(c, Next(c, Run(c, steps), Deliver(n, k, msg)), n, k)
  {
    hide Run, TakenIn, Next, Inv, AllTold, AllOwed, SetWeight, Valid, NonNegative;
    var s := Run(c, steps);
    RunTells(c, steps);
    RunOwed(c, steps);
    InNodes(c, s, n);
    InNodes(c, s, k);
    SentIsHashed(c, s, k, msg);
    NextTakes(c, s, Deliver(n, k, msg), n, k);
  }

  lemma {:induction false} ReceivedIsTakenIn(c: Config, steps: seq<Step>, i: nat, n: NodeId, k: NodeId, msg: Msg)
    requires c.Valid() && n in c.params && k in c.params && ReceivedAt(c, steps, i, n, k, msg)
    ensures TakenIn(c, Run(c, steps), n, k)
    decreases |steps|
  {
    hide Run, TakenIn, Next, Inv, SetWeight, Valid, NonNegative;
    ReceivedLast(c, steps, i, n, k, msg);
    var init := steps[..|steps| - 1];
    if i < |init| {
      ReceivedIsTakenIn(c, init, i, n, k, msg);
      StaysTakenIn(c, init, steps[|steps| - 1], n, k);
    } else {
      NowTakenIn(c, init, n, k, msg);
    }
  }

  lemma ReceivedLast(c: Config, steps: seq<Step>, i: nat, n: NodeId, k: NodeId, msg: Msg)
    requires c.Valid() && ReceivedAt(c, steps, i, n, k, msg)
    ensures i < |steps|
    ensures
      var init, last := steps[..|steps| - 1], steps[|steps| - 1];
      && Inv(c, Run(c, init)) && Run(c, steps) == Next(c, Run(c, init), last)
      && (if i < |init| then ReceivedAt(c, init, i, n, k, msg)
          else (k, msg) in Run(c, init).net && last == Deliver(n, k, msg))
  {
    hide Next, Inv, SetWeight, Valid, NonNegative;
    var init := steps[..|steps| - 1];
    if i < |init| {
      assert init[..i] == steps[..i];
    } else {
      assert steps[..i] == init;
    }
  }

  lemma SentIsHashed(c: Config, s: System, k: NodeId, msg: Msg)
    requires AllOwed(c, s) && k in c.params && k in s.nodes && (k, msg) in s.net
    ensures s.nodes[k].hash.Some?
  {
    hide Owed;
    assert (k, msg).0 in c.params;
  }

  // ---------------------------------------------------------------- validity

  ghost predicate Received(c: Config, steps: seq<Step>, n: NodeId, from: NodeId, msg: Msg)
    requires c.Valid()
  {
    exists i :: ReceivedAt(c, steps, i, n, from, msg)
  }

  /** Every request of a correct node has been answered and every message among correct nodes received, if only once. */
  ghost predicate Quiet(c: Config, steps: seq<Step>)
    requires c.Valid()
  {
    var s := Run(c, steps);
    && s.hashing == {} && s.signing == {} && s.verifying == {}
    && forall m, n | m in s.net && m.0 in c.params && n in c.params :: Received(c, steps, n, m.0, m.1)
  }

  ghost predicate SameSnapshots(c: Config, s: System, snapshot: StateSnapshot) {
    forall n | n in c.params ::
      && n in s.nodes && SnapshotReady(s.nodes[n]) && Snapshot(c.params[n], s.nodes[n]) == snapshot
  }

  lemma CorrectAreQuorum(c: Config)
    requires c.Valid()
    ensures c.params.Keys <= c.membership.Keys && HaveStrongQuorum(c.membership, c.params.Keys)
  {
    var m, f := c.membership, c.faulty * c.membership.Keys;
    SetWeightInclusionExclusion(m, c.params.Keys, f);
    assert c.params.Keys + f == m.Keys && c.params.Keys * f == {};
    hide SetWeight;
    SetWeightMonotone(m, {}, m.Keys);
    assert SetWeight(m, {}) == 0 by {
      NoWeight(m);
    }
  }

  lemma NoWeight(m: Membership)
    ensures SetWeight(m, {}) == 0
  {}

  /** The node has hashed and signed its snapshot, and sent the signature. */
  lemma QuietHasSigned(c: Config, s: System, n: NodeId, snapshot: StateSnapshot)
    requires c.WellFormed() && Inv(c, s) && AllOwed(c, s) && SameSnapshots(c, s, snapshot)
    requires s.hashing == {} && s.signing == {} && n in c.params
    ensures n in s.nodes && s.nodes[n].hash.Some? && n in s.nodes[n].signatures
    ensures (n, OwnMsg(c.params[n], s.nodes[n], n)) in s.net
    ensures
      OwnClaim(c.params[n], s.nodes[n]) ==
        ChkpClaim(snapshot.epochData.config.epochNr, snapshot.epochData.config.firstSn, c.hash(snapshot))
  {
    hide RequestsInv, SigsInv, AnnouncementsInv, NetInv;
    assert Owed(c, s, n) && NodeInv(c, s, n);
  }

  lemma QuietHasCollected(c: Config, s: System, n: NodeId, k: NodeId, snapshot: StateSnapshot)
    requires c.WellFormed() && Inv(c, s) && AllOwed(c, s) && SameSnapshots(c, s, snapshot)
    requires s.hashing == {} && s.signing == {} && s.verifying == {} && TakenIn(c, s, n, k)
    requires s.nodes[n].signatures.Keys <= c.membership.Keys
    ensures Stable(c.params[n], s.nodes[n]) || k in s.nodes[n].signatures
  {
    QuietHasSigned(c, s, n, snapshot);
    QuietHasSigned(c, s, k, snapshot);
    hide Inv, SameSnapshots, NetInv, HaveStrongQuorum;
    assert Owed(c, s, n);
    var claim := OwnClaim(c.params[n], s.nodes[n]);
    assert claim == OwnClaim(c.params[k], s.nodes[k]);
  }

  lemma QuietIsStable(c: Config, steps: seq<Step>, n: NodeId, snapshot: StateSnapshot)
    requires c.Valid() && Quiet(c, steps) && SameSnapshots(c, Run(c, steps), snapshot) && AllOwed(c, Run(c, steps))
    requires n in c.params && n in Run(c, steps).nodes
    requires Run(c, steps).nodes[n].signatures.Keys <= c.membership.Keys
    ensures Stable(c.params[n], Run(c, steps).nodes[n])
  {
    var s := Run(c, steps);
    CorrectAreQuorum(c);
    assert SnapshotReady(s.nodes[n]);
    hide Run, Inv, AllOwed, SetWeight, TakenIn, ReceivedAt;
    forall k | k in c.params ensures Stable(c.params[n], s.nodes[n]) || k in s.nodes[n].signatures {
      QuietHasSigned(c, s, k, snapshot);
      var m := (k, OwnMsg(c.params[k], s.nodes[k], k));
      assert m in s.net && Received(c, steps, n, m.0, m.1);
      var i: nat :| ReceivedAt(c, steps, i, n, k, m.1);
      ReceivedIsTakenIn(c, steps, i, n, k, m.1);
      QuietHasCollected(c, s, n, k, snapshot);
    }
    if c.params.Keys <= s.nodes[n].signatures.Keys {
      SetWeightMonotone(c.membership, c.params.Keys, s.nodes[n].signatures.Keys);
    }
  }

  // ---------------------------------------------------------------- what the snapshot is made of

  /** The application data and the client progress that a node was given first. */
  function FirstData(steps: seq<Step>, n: NodeId): Option<Bytes> {
    if steps == [] then None
    else
      var before, last := FirstData(steps[..|steps| - 1], n), steps[|steps| - 1];
      if before.Some? then before
      else if last.AppData? && last.n == n then Some(if last.data.Some? then last.data.value else [])
      else None
  }

  function FirstProgress(steps: seq<Step>, n: NodeId): Option<map<ClientId, DeliveredPb>> {
    if steps == [] then None
    else
      var before, last := FirstProgress(steps[..|steps| - 1], n), steps[|steps| - 1];
      if before.Some? then before
      else if last.Progress? && last.n == n then Some(last.progress)
      else None
  }

  lemma HandlerKeepsParts(c: Config, s: System, step: Step)
    requires c.WellFormed() && Inv(c, s) && Enabled(c, s, step) && !step.FaultySend?
    requires !step.AppData? && !step.Progress?
    ensures
      var (st, out) := Handle(c, s, step);
      st.appData == s.nodes[step.n].appData && st.progress == s.nodes[step.n].progress
  {
    hide HaveStrongQuorum, Inv;
  }

  lemma NextParts(c: Config, s: System, step: Step, n: NodeId)
    requires c.WellFormed() && Inv(c, s) && n in c.params && n in s.nodes
    ensures
      var t, st := Next(c, s, step), s.nodes[n];
      && n in t.nodes
      && t.nodes[n].appData ==
           (if st.appData.None? && step.AppData? && step.n == n
            then Some(if step.data.Some? then step.data.value else []) else st.appData)
      && t.nodes[n].progress ==
           (if st.progress.None? && step.Progress? && step.n == n then Some(step.progress) else st.progress)
  {
    hide Inv, SaveVerified, SaveOwnSignature, Receive, SaveHash;
    if Enabled(c, s, step) && !step.FaultySend? && !step.AppData? && !step.Progress? {
      HandlerKeepsParts(c, s, step);
    }
  }

  /** A node checkpoints what it was given first. */
  lemma {:induction false} SnapshotIsGiven(c: Config, steps: seq<Step>, n: NodeId)
    requires c.Valid() && n in c.params
    ensures
      var s := Run(c, steps);
      n in s.nodes && s.nodes[n].appData == FirstData(steps, n) && s.nodes[n].progress == FirstProgress(steps, n)
    decreases |steps|
  {
    hide Next, Inv;
    if steps != [] {
      SnapshotIsGiven(c, steps[..|steps| - 1], n);
      NextParts(c, Run(c, steps[..|steps| - 1]), steps[|steps| - 1], n);
    }
  }

  /** All correct nodes are to checkpoint the same epoch with the same leader policy, and were given the same
      application data and client progress. */
  ghost predicate GivenSame(c: Config, steps: seq<Step>, snapshot: StateSnapshot) {
    forall n | n in c.params ::
      && FirstData(steps, n) == Some(snapshot.appData)
      && FirstProgress(steps, n) == Some(snapshot.epochData.clientProgress)
      && c.params[n].config == snapshot.epochData.config
      && c.params[n].leaderPolicy == snapshot.epochData.leaderPolicy
  }

  lemma GivenIsCheckpointed(c: Config, steps: seq<Step>, snapshot: StateSnapshot)
    requires c.Valid() && GivenSame(c, steps, snapshot) && snapshot.epochData.previousMembership == c.membership
    ensures SameSnapshots(c, Run(c, steps), snapshot)
  {
    hide Run, FirstData, FirstProgress, Inv;
    forall n | n in c.params
      ensures
        var s := Run(c, steps);
        n in s.nodes && SnapshotReady(s.nodes[n]) && Snapshot(c.params[n], s.nodes[n]) == snapshot
    {
      SnapshotIsGiven(c, steps, n);
    }
  }

  /** Validity: the correct nodes of an instance were given the same state to checkpoint, and nothing is left to do
      among them. Then every correct node has announced that state, once, and the others accept its certificate. */
  lemma Validity(c: Config, steps: seq<Step>, n: NodeId, snapshot: StateSnapshot) returns (chkp: StableCheckpoint)
    requires c.Valid() && n in c.params && Quiet(c, steps)
    requires GivenSame(c, steps, snapshot) && snapshot.epochData.previousMembership == c.membership
    ensures (n, chkp) in Run(c, steps).announcements && AnnouncedOnce(Run(c, steps), n)
    ensures chkp.snapshot == snapshot && VerifyCert(c.hash, chkp, c.membership) == Accepted
  {
    var s := Run(c, steps);
    AnnouncesIff(c, steps, n);
    RunOwed(c, steps);
    GivenIsCheckpointed(c, steps, snapshot);
    hide Run, Inv, AllOwed, SetWeight, Quiet, AnnouncedOnce, VerifyCert, GivenSame;
    QuietIsStable(c, steps, n, snapshot);
    chkp :| (n, chkp) in s.announcements;
    AnnouncedCertificatesVerify(c, steps, (n, chkp));
  }

  /** What a correct node announces, the others accept: the conservative validator if the membership that signed is one
      of those it knows, the permissive one also if it is further ahead. */
  lemma AnnouncedIsAccepted(
      c: Config, steps: seq<Step>, a: (NodeId, StableCheckpoint), v: ValidatorParams, epochNr: EpochNr,
      ms: seq<Membership>)
    requires c.Valid() && a in Run(c, steps).announcements && v.hash == c.hash
    requires WellFormedForUs(v, a.1) && IdentitiesAgree(a.1.Memberships()) && a.1.Epoch() > epochNr + 1
    requires
      var offset := MembershipOffset(a.1, epochNr);
      offset <= v.configOffset ==> offset < |ms| && ms[offset] == c.membership
    ensures PermissiveVerify(v, a.1, epochNr, ms) == Accepted
    ensures MembershipOffset(a.1, epochNr) <= v.configOffset ==> ConservativeVerify(v, a.1, epochNr, ms) == Accepted
  {
    AnnouncedCertificatesVerify(c, steps, a);
    hide Run, VerifyCert, IdentitiesAgree, SyntacticCheck, Verify;
    CertifiedIsVerified(c.hash, a.1, v.configOffset, c.membership);
  }

  lemma CertifiedIsVerified(hash: StateSnapshot -> Digest, c: StableCheckpoint, configOffset: nat, m: Membership)
    requires SyntacticCheck(c, configOffset) && c.Epoch() > 0 && VerifyCert(hash, c, m) == Accepted
    requires IdentitiesAgree(c.Memberships()) && c.PreviousMembership() == m
    ensures Verify(hash, c, configOffset, m) == Accepted
  {
    hide VerifyCert, IdentitiesAgree, SyntacticCheck;
  }

  // ---------------------------------------------------------------- progress of other nodes

  /** A message tells that its sender has reached the epoch exactly if it is for this checkpoint and from a member,
      when it is received and again when those kept for later are taken up. */
  lemma ProgressIsReported(p: Params, st: State, from: NodeId, msg: Msg, sig: ChkpSig)
    requires st.signatures.Keys <= p.membership.Keys
    ensures EpochProgress(from, msg.epoch) in Receive(p, st, from, msg).1 <==> Relevant(p, from, msg)
    ensures st.hash.Some? && p.ownId in p.membership && from in st.pending ==>
      (EpochProgress(from, p.config.epochNr) in SaveOwnSignature(p, st, sig).1 <==> Relevant(p, from, st.pending[from]))
  {
    hide HaveStrongQuorum;
    if st.hash.Some? && p.ownId in p.membership && from in st.pending {
      var o := EpochProgress(from, p.config.epochNr);
      assert o in Progresses(p, st.pending) <==> Relevant(p, from, st.pending[from]);
    }
  }
}
