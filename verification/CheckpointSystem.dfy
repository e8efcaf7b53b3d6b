/** All the nodes of one checkpoint instance: correct nodes run the protocol, faulty ones send
    whatever they can, and every message, hash result, signature and verification result is
    delivered at an arbitrary later point, or never. */
module CheckpointSystem {
  import opened Quorums
  import opened Types
  import opened Checkpoint
  import opened Certificates

  datatype Config = Config(
    membership: Membership,
    faulty: set<NodeId>,
    params: map<NodeId, Params>,
    hash: StateSnapshot -> Digest)
  {
    predicate WellFormed() {
      && params.Keys == membership.Keys - faulty
      && (forall n | n in params :: params[n].ownId == n && params[n].membership == membership)
    }

    ghost predicate Valid() {
      && WellFormed() && Quorums.Valid(membership) && NonNegative(membership)
      && SetWeight(membership, faulty * membership.Keys) <= MaxFaulty(TotalWeight(membership))
    }
  }

  /** `net` holds every message ever sent with its true sender, `sigs` every signature a correct node
      ever sent, `announcements` every stable checkpoint ever announced. The other three are the
      requests a node's own modules have not answered yet. */
  datatype System = System(
    nodes: map<NodeId, State>,
    net: set<(NodeId, Msg)>,
    sigs: set<ChkpSig>,
    hashing: set<(NodeId, StateSnapshot)>,
    signing: set<(NodeId, ChkpClaim)>,
    verifying: set<(NodeId, Output)>,
    announcements: set<(NodeId, StableCheckpoint)>)

  datatype Step =
    | AppData(n: NodeId, data: Option<Bytes>)
    | Progress(n: NodeId, progress: map<ClientId, DeliveredPb>)
    | Hashed(n: NodeId, snapshot: StateSnapshot)
    | SignDone(n: NodeId, claim: ChkpClaim)
    | VerifyDone(n: NodeId, request: Output)
    | Deliver(n: NodeId, from: NodeId, msg: Msg)
    | FaultySend(n: NodeId, msg: Msg)

  ghost function Init(c: Config): System {
    System(map n | n in c.params :: INIT, {}, {}, {}, {}, {}, {})
  }

  /** A signature of a correct node can be copied once it was sent, but not made up. */
  ghost predicate Obtainable(c: Config, s: System, sig: ChkpSig) {
    sig.Junk? || sig.signer in c.faulty || sig in s.sigs
  }

  ghost predicate Enabled(c: Config, s: System, step: Step) {
    match step
    case AppData(n, _) => n in c.params
    case Progress(n, _) => n in c.params
    case Hashed(n, snapshot) => (n, snapshot) in s.hashing
    case SignDone(n, claim) => (n, claim) in s.signing
    case VerifyDone(n, request) => (n, request) in s.verifying
    case Deliver(n, from, msg) => n in c.params && (from, msg) in s.net
    case FaultySend(n, msg) => n in c.faulty && Obtainable(c, s, msg.sig)
  }

  /** Takes back the request that a step answers. */
  ghost function Answered(s: System, step: Step): System {
    match step
    case Hashed(n, snapshot) => s.(hashing := s.hashing - {(n, snapshot)})
    case SignDone(n, claim) => s.(signing := s.signing - {(n, claim)})
    case VerifyDone(n, r) => s.(verifying := s.verifying - {(n, r)})
    case _ => s
  }

  /** Performs what a correct node's handler put out. */
  ghost function Emit(s: System, n: NodeId, st: State, out: set<Output>): System {
    s.(nodes := s.nodes[n := st],
       net := s.net + (set o | o in out && o.Broadcast? :: (n, o.msg)),
       sigs := s.sigs + (set o | o in out && o.Broadcast? :: o.msg.sig),
       hashing := s.hashing + (set o | o in out && o.HashRequest? :: (n, o.snapshot)),
       signing := s.signing + (set o | o in out && o.SignRequest? :: (n, o.claim)),
       verifying := s.verifying + (set o | o in out && o.VerifyRequest? :: (n, o)),
       announcements := s.announcements + (set o | o in out && o.Announce? :: (n, o.chkp)))
  }

  /** The state and output of the handler a step runs. */
  ghost function Handle(c: Config, s: System, step: Step): (State, set<Output>)
    requires c.WellFormed() && Inv(c, s) && Enabled(c, s, step) && !step.FaultySend?
  {
    var n := step.n;
    var p, st := c.params[n], s.nodes[n];
    match step
    case AppData(_, data) => SaveAppData(p, st, data)
    case Progress(_, progress) => SaveProgress(p, st, progress)
    case Hashed(_, snapshot) => SaveHash(p, st, c.hash(snapshot))
    case SignDone(_, claim) => SaveOwnSignature(p, st, Signed(n, claim))
    case VerifyDone(_, r) => SaveVerified(p, st, r.node, VerifySig(r.claim, r.sig, r.node), r.sig)
    case Deliver(_, from, msg) => Receive(p, st, from, msg)
  }

  /** One step of the system; a step that is not enabled changes nothing. */
  ghost function Next(c: Config, s: System, step: Step): System
    requires c.WellFormed() && Inv(c, s)
  {
    if !Enabled(c, s, step) then s
    else if step.FaultySend? then s.(net := s.net + {(step.n, step.msg)})
    else
      var (st, out) := Handle(c, s, step);
      Emit(Answered(s, step), step.n, st, out)
  }

  // ---------------------------------------------------------------- what every step keeps

  /** The signatures in a map are over one claim, and those of correct nodes were really sent. */
  ghost predicate SignedBy(c: Config, s: System, sigs: map<NodeId, ChkpSig>, claim: ChkpClaim) {
    && sigs.Keys <= c.membership.Keys
    && forall k | k in sigs :: sigs[k] == Signed(k, claim) && (k in c.faulty || sigs[k] in s.sigs)
  }

  ghost predicate NodeInv(c: Config, s: System, n: NodeId)
    requires n in c.params && n in s.nodes
  {
    var p, st := c.params[n], s.nodes[n];
    && (st.hash.Some? ==> SnapshotReady(st) && st.hash.value == c.hash(Snapshot(p, st)))
    && (st.hash.None? ==> st.signatures == map[])
    && (st.hash.Some? ==> SignedBy(c, s, st.signatures, OwnClaim(p, st)))
    && (forall k | k in st.pending :: Obtainable(c, s, st.pending[k].sig))
    && (forall h | h in s.hashing && h.0 == n :: st.hash.None? && SnapshotReady(st) && h.1 == Snapshot(p, st))
    && (forall g | g in s.signing && g.0 == n :: st.hash.Some? && g.1 == OwnClaim(p, st))
  }

  ghost predicate RequestInv(c: Config, s: System, n: NodeId, r: Output) {
    && n in c.params && n in s.nodes && r.VerifyRequest? && r.node in c.membership
    && s.nodes[n].hash.Some? && r.claim == OwnClaim(c.params[n], s.nodes[n])
    && Obtainable(c, s, r.sig)
  }

  ghost predicate AnnouncementInv(c: Config, s: System, n: NodeId, chkp: StableCheckpoint) {
    && n in c.params && n in s.nodes && s.nodes[n].hash.Some? && SnapshotReady(s.nodes[n])
    && chkp.snapshot == Snapshot(c.params[n], s.nodes[n]) && chkp.sn == c.params[n].config.firstSn
    && SignedBy(c, s, chkp.cert, OwnClaim(c.params[n], s.nodes[n]))
    && HaveStrongQuorum(c.membership, chkp.cert.Keys)
  }

  ghost predicate NodesInv(c: Config, s: System)
  {
    s.nodes.Keys == c.params.Keys && forall n | n in c.params :: NodeInv(c, s, n)
  }

  ghost predicate RequestsInv(c: Config, s: System) {
    && (forall h | h in s.hashing :: h.0 in c.params)
    && (forall g | g in s.signing :: g.0 in c.params)
    && (forall r | r in s.verifying :: RequestInv(c, s, r.0, r.1))
  }

  /** Every signature a correct node ever sent is over that node's own, only claim. */
  ghost predicate SigsInv(c: Config, s: System) {
    && (forall g | g in s.sigs ::
          && g.Signed? && g.signer in c.params && g.signer in s.nodes && s.nodes[g.signer].hash.Some?
          && g.data == OwnClaim(c.params[g.signer], s.nodes[g.signer]))
    && (forall m | m in s.net :: Obtainable(c, s, m.1.sig))
  }

  ghost predicate AnnouncementsInv(c: Config, s: System) {
    forall a | a in s.announcements :: AnnouncementInv(c, s, a.0, a.1)
  }

  ghost predicate Inv(c: Config, s: System)
  {
    NodesInv(c, s) && RequestsInv(c, s) && SigsInv(c, s) && AnnouncementsInv(c, s)
  }

  /** What a handler of a correct node may do to its state and put out. */
  ghost predicate Conforms(c: Config, s: System, n: NodeId, st: State, out: set<Output>)
    requires n in c.params && n in s.nodes
  {
    var p, st0 := c.params[n], s.nodes[n];
    var s' := Emit(s, n, st, out);
    // The snapshot is completed and hashed once, and the hash never changes.
    && (SnapshotReady(st0) ==> st.appData == st0.appData && st.progress == st0.progress)
    && (st0.hash.Some? ==> st.hash == st0.hash)
    && NodeInv(c, s', n)
    && (forall o | o in out ::
          && (o.VerifyRequest? ==> RequestInv(c, s', n, o))
          && (o.Broadcast? ==> st.hash.Some? && o.msg.sig == Signed(n, OwnClaim(p, st)))
          && (o.Announce? ==> AnnouncementInv(c, s', n, o.chkp)))
  }

  lemma EmitKeepsNodes(c: Config, s: System, n: NodeId, st: State, out: set<Output>)
    requires n in c.params && NodesInv(c, s) && Conforms(c, s, n, st, out)
    ensures NodesInv(c, Emit(s, n, st, out))
  {
    forall k | k in c.params ensures NodeInv(c, Emit(s, n, st, out), k) {
      assert NodeInv(c, s, k);
    }
  }

  lemma EmitKeepsRequests(c: Config, s: System, n: NodeId, st: State, out: set<Output>)
    requires n in c.params && n in s.nodes && RequestsInv(c, s) && Conforms(c, s, n, st, out)
    ensures RequestsInv(c, Emit(s, n, st, out))
  {
    forall r | r in Emit(s, n, st, out).verifying ensures RequestInv(c, Emit(s, n, st, out), r.0, r.1) {
      assert r in s.verifying ==> RequestInv(c, s, r.0, r.1);
    }
  }

  lemma EmitKeepsAnnouncements(c: Config, s: System, n: NodeId, st: State, out: set<Output>)
    requires n in c.params && n in s.nodes && AnnouncementsInv(c, s) && Conforms(c, s, n, st, out)
    ensures AnnouncementsInv(c, Emit(s, n, st, out))
  {
    forall a | a in Emit(s, n, st, out).announcements ensures AnnouncementInv(c, Emit(s, n, st, out), a.0, a.1) {
      assert a in s.announcements ==> AnnouncementInv(c, s, a.0, a.1);
    }
  }

  lemma EmitKeepsSigs(c: Config, s: System, n: NodeId, st: State, out: set<Output>)
    requires n in c.params && n in s.nodes && SigsInv(c, s) && Conforms(c, s, n, st, out)
    requires s.nodes[n].hash.Some? ==> SnapshotReady(s.nodes[n])
    ensures SigsInv(c, Emit(s, n, st, out))
  {
  }

  lemma SnapshotHandlersConform(
      c: Config, s: System, n: NodeId, data: Option<Bytes>, progress: map<ClientId, DeliveredPb>)
    requires n in c.params && n in s.nodes && NodeInv(c, s, n)
    ensures
      var (st, out) := SaveAppData(c.params[n], s.nodes[n], data);
      Conforms(c, s, n, st, out)
    ensures
      var (st, out) := SaveProgress(c.params[n], s.nodes[n], progress);
      Conforms(c, s, n, st, out)
  {
  }

  lemma HashHandlerConforms(c: Config, s: System, n: NodeId, snapshot: StateSnapshot)
    requires c.WellFormed() && n in c.params && n in s.nodes && NodeInv(c, s, n) && (n, snapshot) in s.hashing
    ensures
      var (st, out) := SaveHash(c.params[n], s.nodes[n], c.hash(snapshot));
      Conforms(c, Answered(s, Hashed(n, snapshot)), n, st, out)
  {
  }

  /** The first half of handling the own signature: saving it, possibly announcing, broadcasting it. */
  ghost function OwnSignaturePart(p: Params, st: State, sig: ChkpSig): (State, set<Output>)
    requires st.signatures.Keys <= p.membership.Keys && p.ownId in p.membership && st.hash.Some?
  {
    var (st', out) := AnnounceIfStable(p,
      st.(signatures := st.signatures[p.ownId := sig], sigReceived := st.sigReceived + {p.ownId}));
    (st', out + {Broadcast(Msg(p.config.epochNr, p.config.firstSn, st.hash.value, sig))})
  }

  lemma OwnSignaturePartConforms(c: Config, s: System, n: NodeId, claim: ChkpClaim)
    requires c.WellFormed() && n in c.params && n in s.nodes && NodeInv(c, s, n)
    requires s.nodes[n].hash.Some? && claim == OwnClaim(c.params[n], s.nodes[n])
    ensures
      var (st, out) := OwnSignaturePart(c.params[n], s.nodes[n], Signed(n, claim));
      Conforms(c, s, n, st, out)
  {
    var (st, out) := OwnSignaturePart(c.params[n], s.nodes[n], Signed(n, claim));
    var s' := Emit(s, n, st, out);
    assert SignedBy(c, s', st.signatures, claim) by {
      var config := c.params[n].config;
      assert Broadcast(Msg(config.epochNr, config.firstSn, s.nodes[n].hash.value, Signed(n, claim))) in out;
    }
  }

  lemma PendingPartConforms(c: Config, s: System, n: NodeId)
    requires c.WellFormed() && n in c.params && n in s.nodes && NodeInv(c, s, n) && s.nodes[n].hash.Some?
    ensures
      var (st, out) := ReceiveAll(c.params[n], s.nodes[n], s.nodes[n].pending);
      Conforms(c, s, n, st.(pending := map[]), out)
  {
  }

  lemma EmitTwice(s: System, n: NodeId, st1: State, out1: set<Output>, st2: State, out2: set<Output>)
    ensures Emit(Emit(s, n, st1, out1), n, st2, out2) == Emit(s, n, st2, out1 + out2)
  {
    var s2, s' := Emit(Emit(s, n, st1, out1), n, st2, out2), Emit(s, n, st2, out1 + out2);
    assert s2.net == s'.net;
    assert s2.sigs == s'.sigs;
    assert s2.hashing == s'.hashing;
    assert s2.signing == s'.signing;
    assert s2.verifying == s'.verifying;
    assert s2.announcements == s'.announcements;
  }

  ghost function AfterOwnSignature(c: Config, s: System, n: NodeId, claim: ChkpClaim): System
    requires c.WellFormed() && n in c.params && n in s.nodes && s.nodes[n].hash.Some?
    requires s.nodes[n].signatures.Keys <= c.membership.Keys
  {
    var (st, out) := OwnSignaturePart(c.params[n], s.nodes[n], Signed(n, claim));
    Emit(Answered(s, SignDone(n, claim)), n, st, out)
  }

  lemma OwnSignatureKeepsInv(c: Config, s: System, n: NodeId, claim: ChkpClaim)
    requires c.WellFormed() && Inv(c, s) && (n, claim) in s.signing
    ensures s.nodes[n].hash.Some? && s.nodes[n].signatures.Keys <= c.membership.Keys
    ensures Inv(c, AfterOwnSignature(c, s, n, claim))
  {
    assert NodeInv(c, s, n);
    var s1 := Answered(s, SignDone(n, claim));
    AnsweredKeepsInv(c, s, SignDone(n, claim));
    OwnSignaturePartConforms(c, s1, n, claim);
    var (st, out) := OwnSignaturePart(c.params[n], s.nodes[n], Signed(n, claim));
    EmitKeepsInv(c, s1, n, st, out);
  }

  lemma PendingKeepsInv(c: Config, s: System, n: NodeId)
    requires c.WellFormed() && n in c.params && Inv(c, s) && s.nodes[n].hash.Some?
    ensures s.nodes[n].signatures.Keys <= c.membership.Keys
    ensures
      var (st, out) := ReceiveAll(c.params[n], s.nodes[n], s.nodes[n].pending);
      Inv(c, Emit(s, n, st.(pending := map[]), out))
  {
    assert NodeInv(c, s, n);
    PendingPartConforms(c, s, n);
    var (st, out) := ReceiveAll(c.params[n], s.nodes[n], s.nodes[n].pending);
    EmitKeepsInv(c, s, n, st.(pending := map[]), out);
  }

  lemma SignDoneSplits(c: Config, s: System, n: NodeId, claim: ChkpClaim)
    requires c.WellFormed() && Inv(c, s) && (n, claim) in s.signing
    requires s.nodes[n].hash.Some? && s.nodes[n].signatures.Keys <= c.membership.Keys
    ensures
      var s2 := AfterOwnSignature(c, s, n, claim);
      && n in s2.nodes && s2.nodes[n].hash.Some? && s2.nodes[n].signatures.Keys <= c.membership.Keys
      && var (st, out) := ReceiveAll(c.params[n], s2.nodes[n], s2.nodes[n].pending);
         Next(c, s, SignDone(n, claim)) == Emit(s2, n, st.(pending := map[]), out)
  {
    var s1 := Answered(s, SignDone(n, claim));
    var (st2, out2) := OwnSignaturePart(c.params[n], s.nodes[n], Signed(n, claim));
    var (st3, out3) := ReceiveAll(c.params[n], st2, st2.pending);
    EmitTwice(s1, n, st2, out2, st3.(pending := map[]), out3);
  }

  lemma SignDoneKeepsInv(c: Config, s: System, n: NodeId, claim: ChkpClaim)
    requires c.WellFormed() && Inv(c, s) && (n, claim) in s.signing
    ensures Inv(c, Next(c, s, SignDone(n, claim)))
  {
    OwnSignatureKeepsInv(c, s, n, claim);
    SignDoneSplits(c, s, n, claim);
    PendingKeepsInv(c, AfterOwnSignature(c, s, n, claim), n);
  }

  lemma VerifyHandlerConforms(c: Config, s: System, n: NodeId, r: Output)
    requires c.WellFormed() && n in c.params && n in s.nodes && NodeInv(c, s, n) && RequestInv(c, s, n, r)
    ensures
      var (st, out) := SaveVerified(c.params[n], s.nodes[n], r.node, VerifySig(r.claim, r.sig, r.node), r.sig);
      Conforms(c, Answered(s, VerifyDone(n, r)), n, st, out)
  {
  }

  lemma ReceiveConforms(c: Config, s: System, n: NodeId, from: NodeId, msg: Msg)
    requires c.WellFormed() && n in c.params && n in s.nodes && NodeInv(c, s, n) && Obtainable(c, s, msg.sig)
    ensures
      var (st, out) := Receive(c.params[n], s.nodes[n], from, msg);
      Conforms(c, s, n, st, out)
  {
  }

  lemma AnsweredKeepsNode(c: Config, s: System, step: Step, n: NodeId)
    requires n in c.params && n in s.nodes && NodeInv(c, s, n)
    ensures NodeInv(c, Answered(s, step), n)
  {
  }

  lemma AnsweredKeepsRest(c: Config, s: System, step: Step)
    requires RequestsInv(c, s) && SigsInv(c, s) && AnnouncementsInv(c, s)
    ensures RequestsInv(c, Answered(s, step)) && SigsInv(c, Answered(s, step)) && AnnouncementsInv(c, Answered(s, step))
  {
  }

  lemma AnsweredKeepsInv(c: Config, s: System, step: Step)
    requires Inv(c, s)
    ensures Inv(c, Answered(s, step))
  {
    AnsweredKeepsRest(c, s, step);
    forall n | n in c.params ensures NodeInv(c, Answered(s, step), n) {
      AnsweredKeepsNode(c, s, step, n);
    }
  }

  lemma EmitKeepsInv(c: Config, s: System, n: NodeId, st: State, out: set<Output>)
    requires n in c.params && Inv(c, s) && Conforms(c, s, n, st, out)
    ensures Inv(c, Emit(s, n, st, out))
  {
    assert NodeInv(c, s, n);
    EmitKeepsNodes(c, s, n, st, out);
    EmitKeepsRequests(c, s, n, st, out);
    EmitKeepsSigs(c, s, n, st, out);
    EmitKeepsAnnouncements(c, s, n, st, out);
  }

  lemma HandlerConforms(c: Config, s: System, step: Step)
    requires c.WellFormed() && Inv(c, s) && Enabled(c, s, step) && !step.FaultySend? && !step.SignDone?
    ensures
      var (st, out) := Handle(c, s, step);
      Conforms(c, Answered(s, step), step.n, st, out)
  {
    assert step.VerifyDone? ==> RequestInv(c, s, step.n, step.request);
    assert NodeInv(c, s, step.n);
    match step {
      case AppData(n, data) => SnapshotHandlersConform(c, s, n, data, map[]);
      case Progress(n, progress) => SnapshotHandlersConform(c, s, n, None, progress);
      case Hashed(n, snapshot) => HashHandlerConforms(c, s, n, snapshot);
      case VerifyDone(n, r) => VerifyHandlerConforms(c, s, n, r);
      case Deliver(n, from, msg) => ReceiveConforms(c, s, n, from, msg);
    }
  }

  lemma FaultySendKeepsInv(c: Config, s: System, n: NodeId, msg: Msg)
    requires Inv(c, s) && Obtainable(c, s, msg.sig)
    ensures Inv(c, s.(net := s.net + {(n, msg)}))
  {
    forall k | k in c.params ensures NodeInv(c, s.(net := s.net + {(n, msg)}), k) {
      assert NodeInv(c, s, k);
    }
  }

  lemma NextKeepsInv(c: Config, s: System, step: Step)
    requires c.WellFormed() && Inv(c, s)
    ensures Inv(c, Next(c, s, step))
  {
    if Enabled(c, s, step) {
      if step.FaultySend? {
        FaultySendKeepsInv(c, s, step.n, step.msg);
      } else if step.SignDone? {
        SignDoneKeepsInv(c, s, step.n, step.claim);
      } else {
        HandlerConforms(c, s, step);
        AnsweredKeepsInv(c, s, step);
        var (st, out) := Handle(c, s, step);
        EmitKeepsInv(c, Answered(s, step), step.n, st, out);
      }
    }
  }

  // ---------------------------------------------------------------- all runs

  /** The system after any sequence of steps. */
  ghost function Run(c: Config, steps: seq<Step>): (s: System)
    requires c.Valid()
    ensures Inv(c, s)
  {
    if steps == [] then Init(c)
    else
      var s0 := Run(c, steps[..|steps| - 1]);
      NextKeepsInv(c, s0, steps[|steps| - 1]);
      Next(c, s0, steps[|steps| - 1])
  }

  /** Agreement: whatever two correct nodes of an instance ever announce, in any run and in any order,
      is for the same epoch, sequence number and snapshot hash. */
  lemma Agreement(c: Config, steps: seq<Step>, a1: (NodeId, StableCheckpoint), a2: (NodeId, StableCheckpoint))
    requires c.Valid()
    requires a1 in Run(c, steps).announcements && a2 in Run(c, steps).announcements
    ensures Claim(c.hash, a1.1) == Claim(c.hash, a2.1)
  {
    var s := Run(c, steps);
    assert AnnouncementInv(c, s, a1.0, a1.1) && AnnouncementInv(c, s, a2.0, a2.1);
    var n := StrongQuorumsShareCorrect(c.membership, a1.1.cert.Keys, a2.1.cert.Keys, c.faulty);
    assert NodeInv(c, s, a1.0) && NodeInv(c, s, a2.0);
    assert a1.1.cert[n] in s.sigs && a2.1.cert[n] in s.sigs;
  }

  /** Every announced certificate passes the check that other nodes apply to it, against the membership
      that ran the protocol. */
  lemma AnnouncedCertificatesVerify(c: Config, steps: seq<Step>, a: (NodeId, StableCheckpoint))
    requires c.Valid() && a in Run(c, steps).announcements
    ensures VerifyCert(c.hash, a.1, c.membership) == Accepted
    ensures a.1.PreviousMembership() == c.membership
  {
    var s := Run(c, steps);
    assert AnnouncementInv(c, s, a.0, a.1) && NodeInv(c, s, a.0);
    QuorumBounds(c.membership);
  }

  /** Conversely, a certificate over signatures that exist in the run passes the check only if a correct
      node holds exactly the snapshot hash it certifies. */
  lemma VerifiedCertificatesAreBacked(c: Config, steps: seq<Step>, chkp: StableCheckpoint) returns (n: NodeId)
    requires c.Valid() && VerifyCert(c.hash, chkp, c.membership) == Accepted
    requires forall k | k in chkp.cert :: Obtainable(c, Run(c, steps), chkp.cert[k])
    ensures n in c.params && n in Run(c, steps).nodes && Run(c, steps).nodes[n].hash.Some?
    ensures OwnClaim(c.params[n], Run(c, steps).nodes[n]) == Claim(c.hash, chkp)
  {
    n := WeakQuorumHasCorrect(c.membership, chkp.cert.Keys, c.faulty);
    assert chkp.cert[n] in Run(c, steps).sigs;
  }
}
