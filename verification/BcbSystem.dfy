/** All the nodes of one broadcast instance: correct nodes run the module, faulty ones send whatever
    they can, and messages, signatures and verification results arrive in any order, any number of
    times for messages, or never. */
module BcbSystem {
  import opened Lists
  import opened Quorums
  import opened Types
  import opened Bcb
  import opened SortedKeys

  datatype Config = Config(p: Params, faulty: set<NodeId>) {
    function Members(): set<NodeId> { set n | n in p.allNodes }

    predicate Correct(n: NodeId) { n in p.allNodes && n !in faulty }

    ghost predicate Valid() {
      Distinct(p.allNodes) && |faulty * Members()| <= p.F()
    }
  }

  /** A delivery with the certificate that led to it. */
  datatype Delivery = Delivery(node: NodeId, data: Data, signers: seq<NodeId>)

  /** `sigs` are the echo signatures correct nodes ever sent, `broadcasts` the payloads the leader was
      ever asked to broadcast, `deliveries` all deliveries ever made by correct nodes. */
  datatype System = System(
    nodes: map<NodeId, State>,
    net: set<(NodeId, Msg)>,
    sigs: set<EchoSig>,
    signing: set<(NodeId, Data)>,
    verifying: set<(NodeId, Output)>,
    broadcasts: set<Data>,
    deliveries: set<Delivery>)

  datatype Step =
    | Request(n: NodeId, payload: Option<Data>)
    | Receive(n: NodeId, from: NodeId, msg: Msg)
    | SignDone(n: NodeId, data: Data)
    | VerifyDone(n: NodeId, request: Output)
    | StateUpdate(n: NodeId, order: seq<NodeId>)
    | FaultySend(n: NodeId, msg: Msg)

  function Init(c: Config): System {
    System(map n | n in c.Members() && n !in c.faulty :: INIT, {}, {}, {}, {}, {}, {})
  }

  /** A signature of a correct node can be copied once it was sent, but not made up. */
  predicate Obtainable(c: Config, s: System, sig: EchoSig) {
    sig.Junk? || !c.Correct(sig.signer) || sig in s.sigs
  }

  predicate MsgObtainable(c: Config, s: System, msg: Msg) {
    match msg
    case Start(_) => true
    case Echo(sig) => Obtainable(c, s, sig)
    case Final(_, _, sigs) => forall sig | sig in sigs :: Obtainable(c, s, sig)
  }

  ghost predicate Enabled(c: Config, s: System, step: Step) {
    if step.FaultySend? then !c.Correct(step.n) && MsgObtainable(c, s, step.msg)
    else
      && c.Correct(step.n) && step.n in s.nodes
      && match step
         case Request(_, _) => true
         case Receive(_, from, msg) => (from, msg) in s.net
         case SignDone(n, data) => (n, data) in s.signing
         case VerifyDone(n, r) => (n, r) in s.verifying && (r.VerifyEcho? || r.VerifyFinal?)
         case StateUpdate(n, order) =>
           Enumerates(order, s.nodes[n].echoSigs) && forall k | k in order :: k in s.nodes[n].echoSigs
  }

  predicate AllValid(data: Data, signers: seq<NodeId>, sigs: seq<EchoSig>) {
    |signers| == |sigs| && forall i | 0 <= i < |sigs| :: VerifySig(data, sigs[i], signers[i])
  }

  ghost function Handle(c: Config, s: System, step: Step): (State, set<Output>)
    requires Enabled(c, s, step) && !step.FaultySend?
  {
    var p, st := c.p, s.nodes[step.n];
    match step
    case Request(n, data) => OnBroadcast(p, n, st, data)
    case Receive(n, from, msg) =>
      (match msg
       case Start(data) => OnStart(p, st, from, data)
       case Echo(sig) => OnEcho(p, n, st, from, sig)
       case Final(data, signers, sigs) => OnFinal(p, st, data, signers, sigs))
    case SignDone(n, data) => OnSigned(p, st, Signed(n, data))
    case VerifyDone(n, r) =>
      if r.VerifyEcho? then OnEchoVerified(st, r.node, VerifySig(r.data, r.sig, r.node), r.sig)
      else OnFinalVerified(st, AllValid(r.data, r.signers, r.sigs), r.data)
    case StateUpdate(n, order) => OnStateUpdate(p, st, order)
  }

  /** Performs what a handler put out; a delivery is recorded with the certificate just verified. */
  ghost function Emit(s: System, step: Step, st: State, out: set<Output>): System {
    var n := step.n;
    s.(nodes := s.nodes[n := st],
       net := s.net + (set o | o in out && o.Send? :: (n, o.msg)),
       sigs := s.sigs + (set o | o in out && o.Send? && o.msg.Echo? :: o.msg.sig),
       signing := s.signing + (set o | o in out && o.SignRequest? :: (n, o.data)),
       verifying := s.verifying + (set o | o in out && (o.VerifyEcho? || o.VerifyFinal?) :: (n, o)),
       broadcasts := s.broadcasts + (if step.Request? && Fail !in out then {Sent(step.payload)} else {}),
       deliveries := s.deliveries +
         (set o | o in out && o.Deliver? ::
            Delivery(n, o.data, if step.VerifyDone? && step.request.VerifyFinal? then step.request.signers else [])))
  }

  /** One step of the system; a step that is not enabled changes nothing. Requests stay available: the
      argument does not need that a module answers only once. */
  ghost function Next(c: Config, s: System, step: Step): System {
    if !Enabled(c, s, step) then s
    else if step.FaultySend? then s.(net := s.net + {(step.n, step.msg)})
    else
      var (st, out) := Handle(c, s, step);
      Emit(s, step, st, out)
  }

  ghost function Run(c: Config, steps: seq<Step>): System {
    if steps == [] then Init(c)
    else Next(c, Run(c, steps[..|steps| - 1]), steps[|steps| - 1])
  }

  // ---------------------------------------------------------------- what every step keeps

  ghost predicate SigInv(c: Config, s: System, sig: EchoSig) {
    && sig.Signed? && c.Correct(sig.signer) && sig.signer in s.nodes && s.nodes[sig.signer].sentEcho
    && (c.p.leader, Start(sig.data)) in s.net
    && forall g | g in s.sigs && g.Signed? && g.signer == sig.signer :: g == sig
  }

  ghost predicate RequestInv(c: Config, s: System, r: Output) {
    && (r.VerifyEcho? ==> Obtainable(c, s, r.sig))
    && (r.VerifyFinal? ==>
      && |r.signers| == |r.sigs| && |r.signers| > c.p.Threshold()
      && forall sig | sig in r.sigs :: Obtainable(c, s, sig))
  }

  ghost predicate DeliveryInv(c: Config, s: System, d: Delivery) {
    && d.node in s.nodes && s.nodes[d.node].delivered
    && |d.signers| > c.p.Threshold()
    && (forall k | k in d.signers && c.Correct(k) :: Signed(k, d.data) in s.sigs)
    && forall e | e in s.deliveries && e.node == d.node :: e == d
  }

  ghost predicate NodeInv(c: Config, s: System, st: State) {
    forall k | k in st.echoSigs :: Obtainable(c, s, st.echoSigs[k])
  }

  ghost predicate NodesInv(c: Config, s: System) {
    s.nodes.Keys == c.Members() - c.faulty && forall n | n in s.nodes :: NodeInv(c, s, s.nodes[n])
  }

  ghost predicate SigsInv(c: Config, s: System) {
    && (forall sig | sig in s.sigs :: SigInv(c, s, sig))
    && (forall g | g in s.signing :: (c.p.leader, Start(g.1)) in s.net)
  }

  ghost predicate RequestsInv(c: Config, s: System) {
    forall r | r in s.verifying :: RequestInv(c, s, r.1)
  }

  ghost predicate NetInv(c: Config, s: System) {
    forall m | m in s.net ::
      && MsgObtainable(c, s, m.1)
      && (c.Correct(m.0) && m.1.Start? ==> m.1.data in s.broadcasts)
  }

  ghost predicate DeliveriesInv(c: Config, s: System) {
    forall d | d in s.deliveries :: DeliveryInv(c, s, d)
  }

  ghost predicate Inv(c: Config, s: System) {
    NodesInv(c, s) && SigsInv(c, s) && RequestsInv(c, s) && NetInv(c, s) && DeliveriesInv(c, s)
  }

  /** What a handler of a correct node may do to its state and put out: at most one output, an echo only
      of a payload received from the leader and only the first time, a delivery only of a payload whose
      certificate verified and only the first time. */
  ghost predicate Conforms(c: Config, s: System, step: Step, st: State, out: set<Output>)
    requires step.n in s.nodes
  {
    var n, st0 := step.n, s.nodes[step.n];
    && (st0.sentEcho ==> st.sentEcho) && (st0.delivered ==> st.delivered)
    && NodeInv(c, s, st)
    && (forall o1, o2 | o1 in out && o2 in out :: o1 == o2)
    && forall o | o in out ::
         match o
         case Fail => true
         case Send(Start(data), _) => step.Request? && Sent(step.payload) == data
         case Send(Echo(sig), _) =>
           sig.Signed? && sig.signer == n && (n, sig.data) in s.signing && !st0.sentEcho && st.sentEcho
         case Send(msg, _) => MsgObtainable(c, s, msg)
         case SignRequest(data) => (c.p.leader, Start(data)) in s.net
         case VerifyEcho(_, _, _) => RequestInv(c, s, o)
         case VerifyFinal(_, _, _) => RequestInv(c, s, o)
         case Deliver(data) =>
           && !st0.delivered && st.delivered
           && step.VerifyDone? && step.request.VerifyFinal? && step.request.data == data
           && RequestInv(c, s, step.request) && AllValid(data, step.request.signers, step.request.sigs)
  }

  lemma EmitKeepsNodes(c: Config, s: System, step: Step, st: State, out: set<Output>)
    requires step.n in s.nodes && NodesInv(c, s) && Conforms(c, s, step, st, out)
    ensures NodesInv(c, Emit(s, step, st, out))
  {
  }

  lemma EmitKeepsSigs(c: Config, s: System, step: Step, st: State, out: set<Output>)
    requires step.n in s.nodes && c.Correct(step.n) && SigsInv(c, s) && Conforms(c, s, step, st, out)
    ensures SigsInv(c, Emit(s, step, st, out))
  {
    var s' := Emit(s, step, st, out);
    forall sig | sig in s'.sigs ensures SigInv(c, s', sig) {
      assert sig in s.sigs ==> SigInv(c, s, sig);
    }
  }

  lemma EmitKeepsRequests(c: Config, s: System, step: Step, st: State, out: set<Output>)
    requires step.n in s.nodes && RequestsInv(c, s) && Conforms(c, s, step, st, out)
    ensures RequestsInv(c, Emit(s, step, st, out))
  {
    var s' := Emit(s, step, st, out);
    forall r | r in s'.verifying ensures RequestInv(c, s', r.1) {
      assert RequestInv(c, s, r.1);
    }
  }

  lemma EmitKeepsNet(c: Config, s: System, step: Step, st: State, out: set<Output>)
    requires step.n in s.nodes && NetInv(c, s) && Conforms(c, s, step, st, out)
    ensures NetInv(c, Emit(s, step, st, out))
  {
    var s' := Emit(s, step, st, out);
    forall m | m in s'.net ensures MsgObtainable(c, s', m.1) {
      assert m in s.net ==> MsgObtainable(c, s, m.1);
    }
  }

  lemma EmitKeepsDeliveries(c: Config, s: System, step: Step, st: State, out: set<Output>)
    requires step.n in s.nodes && c.Correct(step.n) && DeliveriesInv(c, s) && Conforms(c, s, step, st, out)
    ensures DeliveriesInv(c, Emit(s, step, st, out))
  {
    var s' := Emit(s, step, st, out);
    forall d | d in s'.deliveries ensures DeliveryInv(c, s', d) {
      if d in s.deliveries {
        assert DeliveryInv(c, s, d);
      } else {
        var r := step.request;
        forall k | k in d.signers && c.Correct(k) ensures Signed(k, d.data) in s'.sigs {
          var i :| 0 <= i < |d.signers| && d.signers[i] == k;
          assert VerifySig(r.data, r.sigs[i], r.signers[i]) && Obtainable(c, s, r.sigs[i]);
        }
      }
      forall e | e in s'.deliveries && e.node == d.node ensures e == d {
        assert e in s.deliveries ==> DeliveryInv(c, s, e);
      }
    }
  }

  lemma SigsOfAreValues(sigs: map<NodeId, EchoSig>, order: seq<NodeId>)
    requires forall n | n in order :: n in sigs
    ensures forall sig | sig in SigsOf(sigs, order) :: sig in sigs.Values
  {
    if order != [] {
      SigsOfAreValues(sigs, order[..|order| - 1]);
      assert order[|order| - 1] in sigs;
    }
  }

  lemma HandlerConforms(c: Config, s: System, step: Step)
    requires Inv(c, s) && Enabled(c, s, step) && !step.FaultySend?
    ensures
      var (st, out) := Handle(c, s, step);
      Conforms(c, s, step, st, out)
  {
    assert NodeInv(c, s, s.nodes[step.n]);
    if step.StateUpdate? {
      SigsOfAreValues(s.nodes[step.n].echoSigs, step.order);
    }
  }

  lemma NextKeepsInv(c: Config, s: System, step: Step)
    requires Inv(c, s)
    ensures Inv(c, Next(c, s, step))
  {
    if Enabled(c, s, step) && !step.FaultySend? {
      var (st, out) := Handle(c, s, step);
      HandlerConforms(c, s, step);
      EmitKeepsNodes(c, s, step, st, out);
      EmitKeepsSigs(c, s, step, st, out);
      EmitKeepsRequests(c, s, step, st, out);
      EmitKeepsNet(c, s, step, st, out);
      EmitKeepsDeliveries(c, s, step, st, out);
    }
  }

  lemma {:induction false} RunKeepsInv(c: Config, steps: seq<Step>)
    ensures Inv(c, Run(c, steps))
  {
    if steps != [] {
      RunKeepsInv(c, steps[..|steps| - 1]);
      NextKeepsInv(c, Run(c, steps[..|steps| - 1]), steps[|steps| - 1]);
    }
  }

  // ---------------------------------------------------------------- all runs

  /** What the handler of FINAL messages does not check: it only compares the lengths of the two lists. */
  ghost predicate EnoughMembers(c: Config, signers: seq<NodeId>) {
    |Elements(signers) * c.Members()| > c.p.Threshold()
  }

  /** Lists of more than (N+F)/2 members without repetitions have enough. */
  lemma DistinctMembersAreEnough(c: Config, signers: seq<NodeId>)
    requires Distinct(signers) && |signers| > c.p.Threshold() && forall n | n in signers :: n in c.p.allNodes
    ensures EnoughMembers(c, signers)
  {
    DistinctSize(signers);
    assert Elements(signers) * c.Members() == Elements(signers);
  }

  /** Two certificates with more than (N+F)/2 different members share a correct member. */
  lemma CertificatesOverlap(c: Config, a: seq<NodeId>, b: seq<NodeId>) returns (n: NodeId)
    requires c.Valid() && EnoughMembers(c, a) && EnoughMembers(c, b)
    ensures n in a && n in b && c.Correct(n)
  {
    var M := c.Members();
    var A, B := Elements(a) * M, Elements(b) * M;
    MembersSize(c);
    assert |A| + |B| == |A + B| + |A * B|;
    SubsetSize(A + B, M);
    if A * B <= c.faulty * M {
      SubsetSize(A * B, c.faulty * M);
      assert false;
    }
    n :| n in A * B && n !in c.faulty * M;
  }

  lemma MembersSize(c: Config)
    requires c.Valid()
    ensures |c.Members()| == c.p.N()
  {
    DistinctSize(c.p.allNodes);
    assert c.Members() == Elements(c.p.allNodes);
  }

  /** Consistency: in every run, any two deliveries of correct nodes whose certificates list enough members,
      whatever else they list, carry the same data. */
  lemma Consistency(c: Config, steps: seq<Step>, d: Delivery, e: Delivery)
    requires c.Valid() && d in Run(c, steps).deliveries && e in Run(c, steps).deliveries
    requires EnoughMembers(c, d.signers) && EnoughMembers(c, e.signers)
    ensures d.data == e.data
  {
    hide EnoughMembers;
    var s := Run(c, steps);
    RunKeepsInv(c, steps);
    assert DeliveryInv(c, s, d) && DeliveryInv(c, s, e);
    var n := CertificatesOverlap(c, d.signers, e.signers);
    assert SigInv(c, s, Signed(n, d.data));
  }

  /** Integrity: what a correct node delivers on such a certificate, a correct leader was asked to broadcast. */
  lemma Integrity(c: Config, steps: seq<Step>, d: Delivery)
    requires c.Valid() && c.Correct(c.p.leader)
    requires d in Run(c, steps).deliveries && EnoughMembers(c, d.signers)
    ensures d.data in Run(c, steps).broadcasts
  {
    hide EnoughMembers;
    var s := Run(c, steps);
    RunKeepsInv(c, steps);
    assert DeliveryInv(c, s, d);
    var n := CertificatesOverlap(c, d.signers, d.signers);
    assert SigInv(c, s, Signed(n, d.data));
  }

  /** No duplication: a correct node delivers at most once, whatever the certificates. */
  lemma NoDuplication(c: Config, steps: seq<Step>, d: Delivery, e: Delivery)
    requires d in Run(c, steps).deliveries && e in Run(c, steps).deliveries && d.node == e.node
    ensures d == e
  {
    RunKeepsInv(c, steps);
    assert DeliveryInv(c, Run(c, steps), d);
  }

  // ---------------------------------------------------------------- certificates with fewer members

  lemma RunSnoc(c: Config, steps: seq<Step>, step: Step)
    ensures Run(c, steps + [step]) == Next(c, Run(c, steps), step)
  {
    assert (steps + [step])[..|steps|] == steps;
  }

  /** Nothing got lost, and only the nodes in `changed` changed. */
  ghost predicate Grown(s: System, t: System, changed: set<NodeId>) {
    && s.net <= t.net && s.sigs <= t.sigs && s.deliveries <= t.deliveries && s.nodes.Keys == t.nodes.Keys
    && (forall n | n in s.nodes && n !in changed :: t.nodes[n] == s.nodes[n])
  }

  /** A certificate sent by a faulty node delivers, if its signatures can be had and are valid and there are
      enough of them. */
  lemma CertificateDelivers(
      c: Config, steps: seq<Step>, n: NodeId, b: NodeId, x: Data, signers: seq<NodeId>, sigs: seq<EchoSig>)
    returns (more: seq<Step>)
    requires c.Correct(n) && !c.Correct(b) && n in Run(c, steps).nodes && !Run(c, steps).nodes[n].delivered
    requires AllValid(x, signers, sigs) && |signers| > c.p.Threshold()
    requires forall sig | sig in sigs :: Obtainable(c, Run(c, steps), sig)
    ensures Delivery(n, x, signers) in Run(c, more).deliveries && Grown(Run(c, steps), Run(c, more), {n})
  {
    var msg, r := Final(x, signers, sigs), VerifyFinal(x, signers, sigs);
    var send, receive, verify := FaultySend(b, msg), Receive(n, b, msg), VerifyDone(n, r);
    var s := Run(c, steps);
    var s1 := Next(c, s, send);
    var s2 := Next(c, s1, receive);
    RunSnoc(c, steps, send);
    RunSnoc(c, steps + [send], receive);
    RunSnoc(c, steps + [send] + [receive], verify);
    more := steps + [send] + [receive] + [verify];
    assert s1 == s.(net := s.net + {(b, msg)});
    assert (n, r) in s2.verifying && s2.nodes == s.nodes;
    assert Deliver(x) in Handle(c, s2, verify).1;
  }

  ghost function Copies<T>(x: T, k: nat): (r: seq<T>)
    ensures |r| == k && (forall y | y in r :: y == x) && forall i | 0 <= i < k :: r[i] == x
  {
    if k == 0 then [] else [x] + Copies(x, k - 1)
  }

  /** One faulty node, listed often enough, makes up a certificate that a correct node accepts. */
  lemma RepeatedSignerDelivers(c: Config, steps: seq<Step>, n: NodeId, b: NodeId, x: Data) returns (more: seq<Step>)
    requires c.Correct(n) && !c.Correct(b) && n in Run(c, steps).nodes && !Run(c, steps).nodes[n].delivered
    ensures Delivery(n, x, Copies(b, c.p.Threshold() + 1)) in Run(c, more).deliveries
    ensures Grown(Run(c, steps), Run(c, more), {n})
  {
    var size := c.p.Threshold() + 1;
    more := CertificateDelivers(c, steps, n, b, x, Copies(b, size), Copies(Signed(b, x), size));
  }

  /** The condition on certificates cannot be dropped: in every configuration with a faulty member, some run makes
      any two correct nodes deliver any two payloads, on certificates that list that one member only. */
  lemma RepeatedSignerBreaksConsistency(c: Config, n: NodeId, k: NodeId, b: NodeId, x: Data, y: Data)
    returns (steps: seq<Step>, d: Delivery, e: Delivery)
    requires c.Correct(n) && c.Correct(k) && n != k && b in c.faulty * c.Members()
    ensures d in Run(c, steps).deliveries && e in Run(c, steps).deliveries
    ensures d.node == n && d.data == x && e.node == k && e.data == y
    ensures Elements(d.signers) == {b} && Elements(e.signers) == {b}
  {
    assert Run(c, []) == Init(c);
    var some := RepeatedSignerDelivers(c, [], n, b, x);
    steps := RepeatedSignerDelivers(c, some, k, b, y);
    d, e := Delivery(n, x, Copies(b, c.p.Threshold() + 1)), Delivery(k, y, Copies(b, c.p.Threshold() + 1));
    assert d.signers[0] == b && e.signers[0] == b;
  }

  /** A faulty leader's START makes a correct node that has not sent an echo send one. */
  lemma StartIsEchoed(c: Config, steps: seq<Step>, n: NodeId, x: Data) returns (more: seq<Step>)
    requires c.Correct(n) && n in Run(c, steps).nodes && !Run(c, steps).nodes[n].sentEcho
    requires (c.p.leader, Start(x)) in Run(c, steps).net
    ensures Signed(n, x) in Run(c, more).sigs && Grown(Run(c, steps), Run(c, more), {n})
    ensures Run(c, more).nodes[n] == Run(c, steps).nodes[n].(sentEcho := true)
  {
    var receive, sign := Receive(n, c.p.leader, Start(x)), SignDone(n, x);
    RunSnoc(c, steps, receive);
    RunSnoc(c, steps + [receive], sign);
    more := steps + [receive] + [sign];
    var s, s1 := Run(c, steps), Run(c, steps + [receive]);
    assert (n, x) in s1.signing && s1.nodes == s.nodes;
    assert Send(Echo(Signed(n, x)), [c.p.leader]) in Handle(c, s1, sign).1;
  }

  /** No node of `nodes` has sent an echo, none in the run has delivered. */
  ghost predicate Fresh(c: Config, s: System, nodes: set<NodeId>) {
    && (forall n | n in nodes :: c.Correct(n) && n in s.nodes && !s.nodes[n].sentEcho)
    && (forall n | n in s.nodes :: !s.nodes[n].delivered)
  }

  lemma {:induction false} StartIsEchoedBy(c: Config, steps: seq<Step>, nodes: set<NodeId>, x: Data)
    returns (more: seq<Step>)
    requires Fresh(c, Run(c, steps), nodes) && (c.p.leader, Start(x)) in Run(c, steps).net
    ensures Grown(Run(c, steps), Run(c, more), nodes) && Fresh(c, Run(c, more), {})
    ensures forall n | n in nodes :: Signed(n, x) in Run(c, more).sigs
    decreases nodes
  {
    more := steps;
    if nodes != {} {
      hide Run, Next;
      var n := Pick(nodes);
      var once := StartIsEchoed(c, steps, n, x);
      more := StartIsEchoedBy(c, once, nodes - {n}, x);
    }
  }

  lemma {:induction false} SubsetOfSize(s: set<NodeId>, k: nat) returns (t: set<NodeId>)
    requires k <= |s|
    ensures t <= s && |t| == k
  {
    if k == 0 {
      t := {};
    } else {
      var x := Pick(s);
      t := SubsetOfSize(s - {x}, k - 1);
      t := t + {x};
    }
  }

  /** If `backers` have echoed x, they and the faulty members certify it, with the leader's signature listed twice. */
  lemma ForgedDelivers(c: Config, steps: seq<Step>, n: NodeId, backers: set<NodeId>, x: Data)
    returns (more: seq<Step>, signers: seq<NodeId>)
    requires c.Correct(n) && n in Run(c, steps).nodes && !Run(c, steps).nodes[n].delivered
    requires c.p.leader in c.faulty * c.Members()
    requires forall b | b in backers :: c.Correct(b) && Signed(b, x) in Run(c, steps).sigs
    requires |c.faulty * c.Members()| + |backers| == c.p.Threshold()
    ensures Delivery(n, x, signers) in Run(c, more).deliveries && Grown(Run(c, steps), Run(c, more), {n})
    ensures |Elements(signers) * c.Members()| == c.p.Threshold()
  {
    hide Run, Grown, Sorted;
    var faulty := c.faulty * c.Members();
    assert faulty * backers == {};
    var ids := Sorted(faulty + backers);
    signers := ids + [c.p.leader];
    assert Elements(signers) == Elements(ids) + {c.p.leader};
    assert Elements(signers) * c.Members() == faulty + backers;
    var sigs: seq<EchoSig> := seq(|signers|, i requires 0 <= i < |signers| => Signed(signers[i], x));
    forall sig | sig in sigs ensures Obtainable(c, Run(c, steps), sig) {
      var i :| 0 <= i < |signers| && sig == Signed(signers[i], x);
      assert signers[i] in Elements(signers);
    }
    more := CertificateDelivers(c, steps, n, c.p.leader, x, signers, sigs);
  }

  /** The bound on the number of members is exact: with a faulty leader and as many faulty members as are tolerated,
      some run makes any two correct nodes deliver any two payloads on certificates with (N+F)/2 different members. */
  lemma FewerMembersBreakConsistency(c: Config, n: NodeId, k: NodeId, x: Data, y: Data)
    returns (steps: seq<Step>, d: Delivery, e: Delivery)
    requires c.Valid() && |c.faulty * c.Members()| == c.p.F() && c.p.leader in c.faulty * c.Members()
    requires c.Correct(n) && c.Correct(k) && n != k
    ensures d in Run(c, steps).deliveries && e in Run(c, steps).deliveries
    ensures d.node == n && d.data == x && e.node == k && e.data == y
    ensures |Elements(d.signers) * c.Members()| == |Elements(e.signers) * c.Members()| == c.p.Threshold()
  {
    var X, Y := DisjointBackers(c);
    steps := BothEchoed(c, X, Y, x, y);
    hide Run;
    var signers;
    steps, signers := ForgedDelivers(c, steps, n, X, x);
    d := Delivery(n, x, signers);
    steps, signers := ForgedDelivers(c, steps, k, Y, y);
    e := Delivery(k, y, signers);
  }

  lemma DisjointBackers(c: Config) returns (X: set<NodeId>, Y: set<NodeId>)
    requires c.Valid() && |c.faulty * c.Members()| == c.p.F()
    ensures X !! Y && |X| == |Y| == c.p.Threshold() - c.p.F()
    ensures forall b | b in X + Y :: c.Correct(b)
  {
    MembersSize(c);
    var M := c.Members();
    var correct := M - c.faulty;
    assert M == correct + c.faulty * M;
    X := SubsetOfSize(correct, c.p.Threshold() - c.p.F());
    assert correct == X + (correct - X);
    Y := SubsetOfSize(correct - X, c.p.Threshold() - c.p.F());
  }

  /** The faulty leader starts both payloads, and gets different echoes. */
  lemma BothEchoed(c: Config, X: set<NodeId>, Y: set<NodeId>, x: Data, y: Data) returns (steps: seq<Step>)
    requires X !! Y && (forall b | b in X + Y :: c.Correct(b)) && !c.Correct(c.p.leader)
    ensures forall b | b in X :: Signed(b, x) in Run(c, steps).sigs
    ensures forall b | b in Y :: Signed(b, y) in Run(c, steps).sigs
    ensures forall n | c.Correct(n) :: n in Run(c, steps).nodes && !Run(c, steps).nodes[n].delivered
  {
    var start, other := FaultySend(c.p.leader, Start(x)), FaultySend(c.p.leader, Start(y));
    assert Run(c, []) == Init(c);
    RunSnoc(c, [], start);
    RunSnoc(c, [] + [start], other);
    steps := [] + [start] + [other];
    assert Fresh(c, Run(c, steps), X + Y);
    hide Run;
    steps := StartIsEchoedBy(c, steps, X, x);
    steps := StartIsEchoedBy(c, steps, Y, y);
  }
}
