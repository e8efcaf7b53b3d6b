/** Validity of the broadcast: with a correct leader that is asked for one payload, once everything among correct nodes
    has been done, every correct node has delivered. */
module BcbValidity {
  import opened Lists
  import opened Quorums
  import opened Types
  import opened Bcb
  import opened BcbSystem
  import opened SortedKeys

  // ---------------------------------------------------------------- nothing left to do

  /** What the nodes, the network between correct nodes and the crypto module owe: echoes go to the leader only. */
  ghost predicate Due(c: Config, s: System, step: Step) {
    Enabled(c, s, step) &&
      match step
      case Receive(n, from, msg) => c.Correct(from) && (msg.Echo? ==> n == c.p.leader)
      case SignDone(_, _) => true
      case VerifyDone(_, _) => true
      case StateUpdate(_, _) => true
      case _ => false
  }

  ghost predicate HappenedAt(c: Config, steps: seq<Step>, i: nat, step: Step) {
    i < |steps| && steps[i] == step && Enabled(c, Run(c, steps[..i]), step)
  }

  ghost predicate Happened(c: Config, steps: seq<Step>, step: Step) {
    exists i :: HappenedAt(c, steps, i, step)
  }

  /** Every message among correct nodes has been received and every request answered, if only once, and every state
      update made, except where doing it would change nothing. */
  ghost predicate Quiet(c: Config, steps: seq<Step>) {
    forall step | Due(c, Run(c, steps), step) ::
      (!step.StateUpdate? && Happened(c, steps, step)) || Next(c, Run(c, steps), step) == Run(c, steps)
  }

  /** Whatever is done among correct nodes, for the first time or again, changes nothing. */
  ghost predicate Stalled(c: Config, s: System) {
    forall step | Due(c, s, step) :: Next(c, s, step) == s
  }

  /** The payloads the leader was asked to broadcast. */
  function Asked(c: Config, steps: seq<Step>): seq<Option<Data>> {
    if steps == [] then []
    else
      var last := steps[|steps| - 1];
      Asked(c, steps[..|steps| - 1]) + (if last.Request? && last.n == c.p.leader then [last.payload] else [])
  }

  ghost predicate AskedOnly(c: Config, steps: seq<Step>, x: Data) {
    forall payload | payload in Asked(c, steps) :: payload == Some(x)
  }

  // ---------------------------------------------------------------- what holds when one payload is asked for

  ghost predicate LeaderThere(c: Config, s: System) {
    c.Correct(c.p.leader) && c.p.leader in s.nodes
  }

  ghost predicate RequestIs(c: Config, s: System, x: Data)
    requires LeaderThere(c, s)
  {
    && s.broadcasts <= {x}
    && (s.nodes[c.p.leader].request.Some? ==>
          s.nodes[c.p.leader].request == Some(x) && (c.p.leader, Start(x)) in s.net)
    && (forall m | m in s.net && m.0 == c.p.leader && m.1.Start? :: s.nodes[c.p.leader].request == Some(x))
  }

  ghost predicate EchoesAre(c: Config, s: System, x: Data) {
    && (forall n | n in s.nodes && s.nodes[n].sentEcho :: (n, Echo(Signed(n, x))) in s.net)
    && (forall m | m in s.net && c.Correct(m.0) && m.1.Echo? :: m.1.sig == Signed(m.0, x))
  }

  ghost predicate Checked(c: Config, s: System, x: Data, n: NodeId) {
    exists sig :: (n, Echo(sig)) in s.net && (c.p.leader, VerifyEcho(x, sig, n)) in s.verifying
  }

  ghost predicate ChecksAre(c: Config, s: System, x: Data)
    requires LeaderThere(c, s)
  {
    && (forall n | n in s.nodes[c.p.leader].receivedEcho :: Checked(c, s, x, n))
    && (forall r | r in s.verifying && r.0 == c.p.leader && r.1.VerifyEcho? ::
          r.1.data == x && s.nodes[c.p.leader].request == Some(x))
  }

  ghost predicate CollectedAre(c: Config, s: System, x: Data)
    requires LeaderThere(c, s)
  {
    forall k | k in s.nodes[c.p.leader].echoSigs ::
      s.nodes[c.p.leader].echoSigs[k] == Signed(k, x) && s.nodes[c.p.leader].request == Some(x)
  }

  ghost predicate GoodFinal(c: Config, x: Data, msg: Msg) {
    msg.Final? && msg.data == x && |msg.signers| > c.p.Threshold() && AllValid(x, msg.signers, msg.sigs)
  }

  ghost predicate FinalIs(c: Config, s: System, x: Data)
    requires LeaderThere(c, s)
  {
    s.nodes[c.p.leader].sentFinal ==> exists msg :: (c.p.leader, msg) in s.net && GoodFinal(c, x, msg)
  }

  ghost predicate DeliveriesAre(s: System) {
    forall n | n in s.nodes && s.nodes[n].delivered :: exists d | d in s.deliveries :: d.node == n
  }

  ghost predicate OnePayload(c: Config, s: System, x: Data) {
    && LeaderThere(c, s) && RequestIs(c, s, x) && EchoesAre(c, s, x) && ChecksAre(c, s, x) && CollectedAre(c, s, x)
    && FinalIs(c, s, x) && DeliveriesAre(s)
  }

  /** Asked for x only, if at all. */
  ghost predicate AsksFor(c: Config, step: Step, x: Data) {
    step.Request? && step.n == c.p.leader ==> step.payload == Some(x)
  }

  // ---------------------------------------------------------------- what a step does

  ghost predicate Acts(c: Config, s: System, step: Step) {
    Enabled(c, s, step) && !step.FaultySend?
  }

  lemma Grows(c: Config, s: System, step: Step)
    requires Acts(c, s, step)
    ensures
      var t := Next(c, s, step);
      && t.nodes.Keys == s.nodes.Keys && (forall k | k in s.nodes && k != step.n :: t.nodes[k] == s.nodes[k])
      && s.net <= t.net && s.verifying <= t.verifying && s.deliveries <= t.deliveries
  {
    hide Handle;
  }

  lemma RequestEffect(c: Config, s: System, step: Step)
    requires Acts(c, s, step)
    ensures
      var t, n, asked := Next(c, s, step), step.n, step.Request? && step.n == c.p.leader;
      && n in t.nodes && t.nodes[n].request == (if asked then step.payload else s.nodes[n].request)
      && t.broadcasts == s.broadcasts + (if asked then {Sent(step.payload)} else {})
      && (asked ==> (n, Start(Sent(step.payload))) in t.net)
      && (forall m | m in t.net && m !in s.net && m.1.Start? :: asked && m.0 == n)
  {
    hide SigsOf, AllValid;
    if step.Request? && step.n == c.p.leader {
      assert Send(Start(Sent(step.payload)), c.p.allNodes) in Handle(c, s, step).1;
    }
  }

  lemma EchoEffect(c: Config, s: System, step: Step)
    requires Acts(c, s, step)
    ensures
      var t, n := Next(c, s, step), step.n;
      && n in t.nodes
      && (forall m | m in t.net && m !in s.net && m.1.Echo? ::
            step.SignDone? && m == (n, Echo(Signed(n, step.data))))
      && (t.nodes[n].sentEcho && !s.nodes[n].sentEcho ==>
            step.SignDone? && (n, Echo(Signed(n, step.data))) in t.net)
  {
    hide SigsOf, AllValid;
    if step.SignDone? && !s.nodes[step.n].sentEcho {
      assert Send(Echo(Signed(step.n, step.data)), [c.p.leader]) in Handle(c, s, step).1;
    }
  }

  /** Who may receive what: START and FINAL are sent to everybody, ECHO to the leader. */
  lemma SentToReaders(c: Config, s: System, step: Step, o: Output)
    requires Acts(c, s, step) && o in Handle(c, s, step).1 && o.Send?
    ensures o.dest == if o.msg.Echo? then [c.p.leader] else c.p.allNodes
  {
    hide SigsOf, AllValid;
  }

  lemma CheckEffect(c: Config, s: System, step: Step, k: NodeId)
    requires Acts(c, s, step)
    ensures
      var t, n, request := Next(c, s, step), step.n, s.nodes[step.n].request;
      && n in t.nodes
      && (k in t.nodes[n].receivedEcho && k !in s.nodes[n].receivedEcho ==>
            && n == c.p.leader && step.Receive? && step.from == k && step.msg.Echo? && request.Some?
            && (n, VerifyEcho(request.value, step.msg.sig, k)) in t.verifying)
      && (forall r | r in t.verifying && r !in s.verifying && r.1.VerifyEcho? :: r.0 == n && request == Some(r.1.data))
  {
    hide SigsOf, AllValid;
    var request := s.nodes[step.n].request;
    if step.Receive? && step.msg.Echo? && request.Some? {
      var r := VerifyEcho(request.value, step.msg.sig, step.from);
      assert step.n == c.p.leader && step.from !in s.nodes[step.n].receivedEcho ==> r in Handle(c, s, step).1;
    }
  }

  lemma CollectEffect(c: Config, s: System, step: Step, k: NodeId)
    requires Acts(c, s, step) && step.n in Next(c, s, step).nodes && k in Next(c, s, step).nodes[step.n].echoSigs
    ensures
      var sigs, sigs' := s.nodes[step.n].echoSigs, Next(c, s, step).nodes[step.n].echoSigs;
      || (k in sigs && sigs'[k] == sigs[k])
      || (step.VerifyDone? && step.request.VerifyEcho? && sigs'[k] == Signed(k, step.request.data))
  {
    hide SigsOf, AllValid;
  }

  lemma FinalEffect(c: Config, s: System, step: Step)
    requires Acts(c, s, step)
    ensures
      var t, n, st := Next(c, s, step), step.n, s.nodes[step.n];
      && n in t.nodes
      && (t.nodes[n].sentFinal && !st.sentFinal ==>
            && step.StateUpdate? && |st.echoSigs| > c.p.Threshold()
            && (n, Final(Sent(st.request), step.order, SigsOf(st.echoSigs, step.order))) in t.net)
  {
    hide SigsOf, AllValid;
    var st := s.nodes[step.n];
    if step.StateUpdate? && |st.echoSigs| > c.p.Threshold() && !st.sentFinal {
      var msg := Final(Sent(st.request), step.order, SigsOf(st.echoSigs, step.order));
      assert Send(msg, c.p.allNodes) in Handle(c, s, step).1;
    }
  }

  lemma DeliverEffect(c: Config, s: System, step: Step)
    requires Acts(c, s, step)
    ensures
      var t, n := Next(c, s, step), step.n;
      && n in t.nodes
      && (t.nodes[n].delivered && !s.nodes[n].delivered ==> exists d | d in t.deliveries :: d.node == n)
  {
    hide SigsOf, AllValid;
    if step.VerifyDone? && step.request.VerifyFinal? && Next(c, s, step).nodes[step.n].delivered {
      var r := step.request;
      if !s.nodes[step.n].delivered {
        assert Deliver(r.data) in Handle(c, s, step).1;
        assert Delivery(step.n, r.data, r.signers) in Next(c, s, step).deliveries;
      }
    }
  }

  // ---------------------------------------------------------------- one payload stays one payload

  /** What correct nodes are asked to sign, the leader started. */
  lemma SignedIsAsked(c: Config, s: System, n: NodeId, data: Data, x: Data)
    requires Inv(c, s) && LeaderThere(c, s) && RequestIs(c, s, x) && (n, data) in s.signing
    ensures data == x
  {
    var m := (c.p.leader, Start(data));
    assert m in s.net && m.1.Start? && c.Correct(m.0);
  }

  lemma RequestStays(c: Config, s: System, step: Step, x: Data)
    requires LeaderThere(c, s) && RequestIs(c, s, x) && Acts(c, s, step) && AsksFor(c, step, x)
    ensures LeaderThere(c, Next(c, s, step)) && RequestIs(c, Next(c, s, step), x)
    ensures s.nodes[c.p.leader].request == Some(x) ==> Next(c, s, step).nodes[c.p.leader].request == Some(x)
  {
    hide Next, Enabled;
    Grows(c, s, step);
    RequestEffect(c, s, step);
  }

  lemma EchoesStay(c: Config, s: System, step: Step, x: Data)
    requires Inv(c, s) && LeaderThere(c, s) && RequestIs(c, s, x) && EchoesAre(c, s, x) && Acts(c, s, step)
    ensures EchoesAre(c, Next(c, s, step), x)
  {
    if step.SignDone? {
      SignedIsAsked(c, s, step.n, step.data, x);
    }
    hide Next, Enabled, Inv, RequestIs;
    Grows(c, s, step);
    EchoEffect(c, s, step);
  }

  lemma StillChecked(c: Config, s: System, t: System, x: Data, n: NodeId)
    requires Checked(c, s, x, n) && s.net <= t.net && s.verifying <= t.verifying
    ensures Checked(c, t, x, n)
  {
    var sig :| (n, Echo(sig)) in s.net && (c.p.leader, VerifyEcho(x, sig, n)) in s.verifying;
  }

  lemma ChecksStay(c: Config, s: System, step: Step, x: Data)
    requires LeaderThere(c, s) && RequestIs(c, s, x) && ChecksAre(c, s, x) && Acts(c, s, step) && AsksFor(c, step, x)
    ensures LeaderThere(c, Next(c, s, step)) && ChecksAre(c, Next(c, s, step), x)
  {
    RequestStays(c, s, step, x);
    assert step.Receive? ==> (step.from, step.msg) in s.net;
    hide Next, Enabled, Checked;
    Grows(c, s, step);
    var t, l := Next(c, s, step), c.p.leader;
    forall n | n in t.nodes[l].receivedEcho ensures Checked(c, t, x, n) {
      CheckEffect(c, s, step, n);
      if n in s.nodes[l].receivedEcho {
        StillChecked(c, s, t, x, n);
      } else {
        CheckedNow(c, t, x, n, step.msg.sig);
      }
    }
    CheckEffect(c, s, step, 0);
  }

  lemma CheckedNow(c: Config, s: System, x: Data, n: NodeId, sig: EchoSig)
    requires (n, Echo(sig)) in s.net && (c.p.leader, VerifyEcho(x, sig, n)) in s.verifying
    ensures Checked(c, s, x, n)
  {}

  lemma CollectedStay(c: Config, s: System, step: Step, x: Data)
    requires LeaderThere(c, s) && RequestIs(c, s, x) && ChecksAre(c, s, x) && CollectedAre(c, s, x)
    requires Acts(c, s, step) && AsksFor(c, step, x)
    ensures LeaderThere(c, Next(c, s, step)) && CollectedAre(c, Next(c, s, step), x)
  {
    RequestStays(c, s, step, x);
    assert step.VerifyDone? ==> (step.n, step.request) in s.verifying;
    hide Next, Enabled, RequestIs, Checked;
    Grows(c, s, step);
    var t, l := Next(c, s, step), c.p.leader;
    forall k | k in t.nodes[l].echoSigs
      ensures t.nodes[l].echoSigs[k] == Signed(k, x) && t.nodes[l].request == Some(x)
    {
      if step.n == l {
        CollectEffect(c, s, step, k);
      }
    }
  }

  lemma {:induction false} SigsOfAt(sigs: map<NodeId, EchoSig>, order: seq<NodeId>, i: nat)
    requires i < |order| && forall n | n in order :: n in sigs
    ensures |SigsOf(sigs, order)| == |order| && SigsOf(sigs, order)[i] == sigs[order[i]]
    decreases |order|
  {
    if i < |order| - 1 {
      SigsOfAt(sigs, order[..|order| - 1], i);
    } else if i > 0 {
      SigsOfAt(sigs, order[..|order| - 1], 0);
    }
  }

  /** The certificate the leader sends. */
  lemma CollectedIsGood(c: Config, s: System, x: Data, order: seq<NodeId>)
    requires LeaderThere(c, s) && CollectedAre(c, s, x) && Enumerates(order, s.nodes[c.p.leader].echoSigs)
    requires forall k | k in order :: k in s.nodes[c.p.leader].echoSigs
    requires |s.nodes[c.p.leader].echoSigs| > c.p.Threshold()
    ensures
      var st := s.nodes[c.p.leader];
      GoodFinal(c, x, Final(Sent(st.request), order, SigsOf(st.echoSigs, order)))
  {
    hide SigsOf;
    var st := s.nodes[c.p.leader];
    var sigs := SigsOf(st.echoSigs, order);
    DistinctSize(order);
    assert |order| == |st.echoSigs.Keys| == |st.echoSigs|;
    assert order[0] in st.echoSigs;
    SigsOfAt(st.echoSigs, order, 0);
    forall i | 0 <= i < |sigs| ensures VerifySig(x, sigs[i], order[i]) {
      SigsOfAt(st.echoSigs, order, i);
      assert order[i] in st.echoSigs;
    }
  }

  lemma FinalStays(c: Config, s: System, step: Step, x: Data)
    requires LeaderThere(c, s) && CollectedAre(c, s, x) && FinalIs(c, s, x) && Acts(c, s, step)
    ensures LeaderThere(c, Next(c, s, step)) && FinalIs(c, Next(c, s, step), x)
  {
    var t, l := Next(c, s, step), c.p.leader;
    if step.StateUpdate? && step.n == l && |s.nodes[l].echoSigs| > c.p.Threshold() {
      CollectedIsGood(c, s, x, step.order);
    }
    hide Next, Enabled, SigsOf, GoodFinal, CollectedAre;
    Grows(c, s, step);
    if s.nodes[l].sentFinal {
      var msg :| (l, msg) in s.net && GoodFinal(c, x, msg);
      assert (l, msg) in t.net;
    } else {
      FinalEffect(c, s, step);
    }
  }

  lemma DeliveriesStay(c: Config, s: System, step: Step)
    requires DeliveriesAre(s) && Acts(c, s, step)
    ensures DeliveriesAre(Next(c, s, step))
  {
    hide Next, Enabled;
    Grows(c, s, step);
    DeliverEffect(c, s, step);
    var t := Next(c, s, step);
    forall n | n in t.nodes && t.nodes[n].delivered ensures exists d | d in t.deliveries :: d.node == n {
      if s.nodes[n].delivered {
        var d :| d in s.deliveries && d.node == n;
        assert d in t.deliveries;
      }
    }
  }

  lemma FaultyKeepsOnePayload(c: Config, s: System, step: Step, x: Data)
    requires OnePayload(c, s, x) && Enabled(c, s, step) && step.FaultySend?
    ensures OnePayload(c, Next(c, s, step), x)
  {
    hide GoodFinal, Checked;
    var t := Next(c, s, step);
    forall n | n in t.nodes[c.p.leader].receivedEcho ensures Checked(c, t, x, n) {
      StillChecked(c, s, t, x, n);
    }
    if s.nodes[c.p.leader].sentFinal {
      var msg :| (c.p.leader, msg) in s.net && GoodFinal(c, x, msg);
      assert (c.p.leader, msg) in t.net;
    }
  }

  lemma NextKeepsOnePayload(c: Config, s: System, step: Step, x: Data)
    requires Inv(c, s) && OnePayload(c, s, x) && AsksFor(c, step, x)
    ensures OnePayload(c, Next(c, s, step), x)
  {
    hide Inv, RequestIs, EchoesAre, ChecksAre, CollectedAre, FinalIs, DeliveriesAre, Handle;
    if Enabled(c, s, step) {
      if step.FaultySend? {
        FaultyKeepsOnePayload(c, s, step, x);
      } else {
        RequestStays(c, s, step, x);
        EchoesStay(c, s, step, x);
        ChecksStay(c, s, step, x);
        CollectedStay(c, s, step, x);
        FinalStays(c, s, step, x);
        DeliveriesStay(c, s, step);
      }
    }
  }

  lemma AskedSnoc(c: Config, steps: seq<Step>, x: Data)
    requires steps != [] && AskedOnly(c, steps, x)
    ensures AskedOnly(c, steps[..|steps| - 1], x) && AsksFor(c, steps[|steps| - 1], x)
  {
    var init, last := steps[..|steps| - 1], steps[|steps| - 1];
    assert forall payload | payload in Asked(c, init) :: payload in Asked(c, steps);
    if last.Request? && last.n == c.p.leader {
      assert last.payload in Asked(c, steps);
    }
  }

  /** Every run in which the leader is asked for one payload only; once it was asked, it knows. */
  lemma {:induction false} RunKeepsOnePayload(c: Config, steps: seq<Step>, x: Data)
    requires c.Correct(c.p.leader) && AskedOnly(c, steps, x)
    ensures OnePayload(c, Run(c, steps), x)
    ensures Asked(c, steps) != [] ==> Run(c, steps).nodes[c.p.leader].request == Some(x)
    decreases |steps|
  {
    hide OnePayload, Next, AskedOnly, Inv;
    if steps == [] {
      BeginsOnePayload(c, x);
    } else {
      var init, last := steps[..|steps| - 1], steps[|steps| - 1];
      AskedSnoc(c, steps, x);
      RunKeepsOnePayload(c, init, x);
      RunKeepsInv(c, init);
      NextKeepsOnePayload(c, Run(c, init), last, x);
      KnowsAfter(c, Run(c, init), last, x);
    }
  }

  lemma BeginsOnePayload(c: Config, x: Data)
    requires c.Correct(c.p.leader)
    ensures OnePayload(c, Run(c, []), x)
  {
    assert Run(c, []) == Init(c);
  }

  lemma KnowsAfter(c: Config, s: System, step: Step, x: Data)
    requires Inv(c, s) && OnePayload(c, s, x) && AsksFor(c, step, x)
    ensures
      var t := Next(c, s, step);
      && LeaderThere(c, t)
      && ((step.Request? && step.n == c.p.leader) || s.nodes[c.p.leader].request == Some(x) ==>
            t.nodes[c.p.leader].request == Some(x))
  {
    hide Inv, EchoesAre, ChecksAre, CollectedAre, FinalIs, DeliveriesAre, Handle;
    InNodes(c, s, c.p.leader);
    if Enabled(c, s, step) && !step.FaultySend? {
      RequestStays(c, s, step, x);
      RequestEffect(c, s, step);
    }
  }

  // ---------------------------------------------------------------- what was done stays done

  ghost predicate Mono(s: System, t: System) {
    && s.nodes.Keys == t.nodes.Keys && s.net <= t.net && s.signing <= t.signing && s.verifying <= t.verifying
    && forall n | n in s.nodes ::
         && (s.nodes[n].sentEcho ==> t.nodes[n].sentEcho) && (s.nodes[n].delivered ==> t.nodes[n].delivered)
         && s.nodes[n].receivedEcho <= t.nodes[n].receivedEcho
         && s.nodes[n].echoSigs.Keys <= t.nodes[n].echoSigs.Keys
  }

  lemma NextMono(c: Config, s: System, step: Step)
    ensures Mono(s, Next(c, s, step))
  {
    hide SigsOf, AllValid;
  }

  lemma MonoTrans(s: System, t: System, u: System)
    requires Mono(s, t) && Mono(t, u)
    ensures Mono(s, u)
  {}

  lemma MonoSame(s: System)
    ensures Mono(s, s)
  {}

  lemma {:induction false} RunMono(c: Config, steps: seq<Step>, i: nat)
    requires i <= |steps|
    ensures Mono(Run(c, steps[..i]), Run(c, steps))
    decreases |steps|
  {
    hide Next, Mono;
    if i < |steps| {
      var init := steps[..|steps| - 1];
      assert init[..i] == steps[..i];
      RunMono(c, init, i);
      NextMono(c, Run(c, init), steps[|steps| - 1]);
      MonoTrans(Run(c, steps[..i]), Run(c, init), Run(c, steps));
    } else {
      assert steps[..i] == steps;
      MonoSame(Run(c, steps));
    }
  }

  /** What is due was due before, or is now, and its effect is there. */
  lemma WasDue(c: Config, steps: seq<Step>, step: Step) returns (i: nat)
    requires Quiet(c, steps) && Due(c, Run(c, steps), step)
    ensures i <= |steps| && Due(c, Run(c, steps[..i]), step)
    ensures Mono(Next(c, Run(c, steps[..i]), step), Run(c, steps))
  {
    if Next(c, Run(c, steps), step) == Run(c, steps) {
      i := |steps|;
      assert steps[..i] == steps;
      MonoSame(Run(c, steps));
    } else {
      i :| HappenedAt(c, steps, i, step);
      assert steps[..i + 1][..i] == steps[..i];
      assert Run(c, steps[..i + 1]) == Next(c, Run(c, steps[..i]), step);
      hide Run, Next, Mono;
      RunMono(c, steps, i + 1);
    }
  }

  lemma {:induction false} AskedBefore(c: Config, steps: seq<Step>, x: Data, i: nat)
    requires i <= |steps| && AskedOnly(c, steps, x)
    ensures AskedOnly(c, steps[..i], x)
    decreases |steps|
  {
    if i < |steps| {
      AskedSnoc(c, steps, x);
      assert steps[..|steps| - 1][..i] == steps[..i];
      AskedBefore(c, steps[..|steps| - 1], x, i);
    } else {
      assert steps[..i] == steps;
    }
  }

  // ---------------------------------------------------------------- everybody delivers

  /** A quiet run in which the leader knows its one payload. */
  ghost predicate Done(c: Config, steps: seq<Step>, x: Data) {
    var s := Run(c, steps);
    && c.Correct(c.p.leader) && AskedOnly(c, steps, x) && Inv(c, s) && OnePayload(c, s, x) && Quiet(c, steps)
    && s.nodes[c.p.leader].request == Some(x)
  }

  lemma InNodes(c: Config, s: System, n: NodeId)
    requires Inv(c, s) && c.Correct(n)
    ensures n in s.nodes
  {}

  lemma DoneHas(c: Config, steps: seq<Step>, x: Data)
    requires Done(c, steps, x)
    ensures
      var s := Run(c, steps);
      && Inv(c, s) && OnePayload(c, s, x) && LeaderThere(c, s) && s.nodes[c.p.leader].request == Some(x)
      && (c.p.leader, Start(x)) in s.net && c.p.leader in c.p.allNodes
  {}

  lemma StartIsSigned(c: Config, s: System, n: NodeId, x: Data)
    requires Due(c, s, Receive(n, c.p.leader, Start(x)))
    ensures s.nodes[n].sentEcho || (n, x) in Next(c, s, Receive(n, c.p.leader, Start(x))).signing
  {
    var receive := Receive(n, c.p.leader, Start(x));
    assert !s.nodes[n].sentEcho ==> SignRequest(x) in Handle(c, s, receive).1;
  }

  lemma SignedIsSent(c: Config, s: System, n: NodeId, x: Data)
    requires Due(c, s, SignDone(n, x))
    ensures
      var t := Next(c, s, SignDone(n, x));
      n in t.nodes && t.nodes[n].sentEcho
  {}

  lemma StartIsReceived(c: Config, steps: seq<Step>, x: Data, n: NodeId)
    requires Done(c, steps, x) && c.Correct(n) && n in Run(c, steps).nodes
    ensures Run(c, steps).nodes[n].sentEcho || (n, x) in Run(c, steps).signing
  {
    DoneHas(c, steps, x);
    hide Run, Next, Inv, OnePayload, Happened;
    var receive := Receive(n, c.p.leader, Start(x));
    assert Due(c, Run(c, steps), receive);
    var i := WasDue(c, steps, receive);
    StartIsSigned(c, Run(c, steps[..i]), n, x);
    RunMono(c, steps, i);
  }

  lemma SigningIsDone(c: Config, steps: seq<Step>, x: Data, n: NodeId)
    requires Done(c, steps, x) && c.Correct(n) && n in Run(c, steps).nodes && (n, x) in Run(c, steps).signing
    ensures Run(c, steps).nodes[n].sentEcho
  {
    hide Run, Next, Inv, OnePayload, Happened;
    var sign := SignDone(n, x);
    assert Due(c, Run(c, steps), sign);
    var i := WasDue(c, steps, sign);
    SignedIsSent(c, Run(c, steps[..i]), n, x);
  }

  lemma EverybodyEchoes(c: Config, steps: seq<Step>, x: Data, n: NodeId)
    requires Done(c, steps, x) && c.Correct(n)
    ensures
      var s := Run(c, steps);
      n in s.nodes && s.nodes[n].sentEcho && (n, Echo(Signed(n, x))) in s.net
  {
    DoneHas(c, steps, x);
    InNodes(c, Run(c, steps), n);
    assert EchoesAre(c, Run(c, steps), x);
    hide Run, Done, Inv, OnePayload;
    StartIsReceived(c, steps, x, n);
    if (n, x) in Run(c, steps).signing {
      SigningIsDone(c, steps, x, n);
    }
  }

  lemma EchoIsNoted(c: Config, s: System, n: NodeId, sig: EchoSig)
    requires Due(c, s, Receive(c.p.leader, n, Echo(sig))) && s.nodes[c.p.leader].request.Some?
    ensures
      var t := Next(c, s, Receive(c.p.leader, n, Echo(sig)));
      c.p.leader in t.nodes && n in t.nodes[c.p.leader].receivedEcho
  {}

  lemma EchoIsKept(c: Config, s: System, n: NodeId, x: Data)
    requires Due(c, s, VerifyDone(c.p.leader, VerifyEcho(x, Signed(n, x), n)))
    ensures
      var t := Next(c, s, VerifyDone(c.p.leader, VerifyEcho(x, Signed(n, x), n)));
      c.p.leader in t.nodes && n in t.nodes[c.p.leader].echoSigs
  {}

  /** A correct node's echo was preceded by a request. */
  lemma EchoedIsKnown(c: Config, steps: seq<Step>, x: Data, n: NodeId, sig: EchoSig)
    requires c.Correct(c.p.leader) && AskedOnly(c, steps, x) && c.Correct(n) && (n, Echo(sig)) in Run(c, steps).net
    ensures LeaderThere(c, Run(c, steps)) && Run(c, steps).nodes[c.p.leader].request == Some(x)
  {
    hide Run, AskedOnly;
    RunKeepsInv(c, steps);
    RunKeepsOnePayload(c, steps, x);
    var s := Run(c, steps);
    var m := (n, Echo(sig));
    assert m in s.net && c.Correct(m.0) && m.1.Echo? && MsgObtainable(c, s, m.1);
    assert sig in s.sigs && SigInv(c, s, sig);
    var start := (c.p.leader, Start(sig.data));
    assert start in s.net && start.1.Start?;
  }

  lemma EchoIsReceived(c: Config, steps: seq<Step>, x: Data, n: NodeId)
    requires Done(c, steps, x) && c.Correct(n)
    ensures c.p.leader in Run(c, steps).nodes && n in Run(c, steps).nodes[c.p.leader].receivedEcho
  {
    EverybodyEchoes(c, steps, x, n);
    DoneHas(c, steps, x);
    hide Run, Next, Inv, OnePayload, Happened;
    var l, receive := c.p.leader, Receive(c.p.leader, n, Echo(Signed(n, x)));
    assert Due(c, Run(c, steps), receive);
    var i := WasDue(c, steps, receive);
    AskedBefore(c, steps, x, i);
    EchoedIsKnown(c, steps[..i], x, n, Signed(n, x));
    EchoIsNoted(c, Run(c, steps[..i]), n, Signed(n, x));
  }

  lemma EveryEchoIsCollected(c: Config, steps: seq<Step>, x: Data, n: NodeId)
    requires Done(c, steps, x) && c.Correct(n)
    ensures c.p.leader in Run(c, steps).nodes && n in Run(c, steps).nodes[c.p.leader].echoSigs
  {
    var s, l := Run(c, steps), c.p.leader;
    EchoIsReceived(c, steps, x, n);
    DoneHas(c, steps, x);
    assert ChecksAre(c, s, x) && EchoesAre(c, s, x);
    hide Run, Next, Inv, OnePayload, Happened, ChecksAre;
    assert Checked(c, s, x, n) by {
      WasChecked(c, s, x, n);
    }
    var sig :| (n, Echo(sig)) in s.net && (l, VerifyEcho(x, sig, n)) in s.verifying;
    var m, verify := (n, Echo(sig)), VerifyDone(l, VerifyEcho(x, Signed(n, x), n));
    assert m in s.net && c.Correct(m.0) && m.1.Echo?;
    assert Due(c, s, verify);
    var i := WasDue(c, steps, verify);
    EchoIsKept(c, Run(c, steps[..i]), n, x);
  }

  lemma WasChecked(c: Config, s: System, x: Data, n: NodeId)
    requires LeaderThere(c, s) && ChecksAre(c, s, x) && n in s.nodes[c.p.leader].receivedEcho
    ensures Checked(c, s, x, n)
  {}

  lemma EnoughEchoes(c: Config, steps: seq<Step>, x: Data)
    requires c.Valid() && Done(c, steps, x)
    ensures c.p.leader in Run(c, steps).nodes && |Run(c, steps).nodes[c.p.leader].echoSigs| > c.p.Threshold()
  {
    DoneHas(c, steps, x);
    hide Done, Run;
    var s := Run(c, steps);
    var M, keys := c.Members(), s.nodes[c.p.leader].echoSigs.Keys;
    var correct := M - c.faulty;
    forall n | n in correct ensures n in keys {
      EveryEchoIsCollected(c, steps, x, n);
    }
    SubsetSize(correct, keys);
    MembersSize(c);
    assert M == correct + c.faulty * M;
    assert |keys| == |s.nodes[c.p.leader].echoSigs|;
    MoreThanThreshold(c);
  }

  lemma MoreThanThreshold(c: Config)
    requires c.p.leader in c.p.allNodes
    ensures c.p.N() - c.p.F() > c.p.Threshold()
  {
    assert c.p.N() > 0;
  }

  lemma FinalGoesOut(c: Config, s: System, order: seq<NodeId>)
    requires Due(c, s, StateUpdate(c.p.leader, order)) && |s.nodes[c.p.leader].echoSigs| > c.p.Threshold()
    ensures
      var t := Next(c, s, StateUpdate(c.p.leader, order));
      c.p.leader in t.nodes && t.nodes[c.p.leader].sentFinal
  {
    hide SigsOf;
  }

  lemma ListedOnce(sigs: map<NodeId, EchoSig>)
    ensures Enumerates(Sorted(sigs.Keys), sigs) && forall k | k in Sorted(sigs.Keys) :: k in sigs
  {
    SortedAscends(sigs.Keys);
  }

  lemma FinalIsSent(c: Config, steps: seq<Step>, x: Data) returns (msg: Msg)
    requires c.Valid() && Done(c, steps, x)
    ensures (c.p.leader, msg) in Run(c, steps).net && GoodFinal(c, x, msg)
  {
    EnoughEchoes(c, steps, x);
    DoneHas(c, steps, x);
    var s := Run(c, steps);
    assert FinalIs(c, s, x);
    hide Run, Inv, OnePayload, GoodFinal, Sorted, Next, Due;
    var order := Sorted(s.nodes[c.p.leader].echoSigs.Keys);
    UpdateIsDue(c, s);
    FinalGoesOut(c, s, order);
    assert Next(c, s, StateUpdate(c.p.leader, order)) == s;
    msg :| (c.p.leader, msg) in s.net && GoodFinal(c, x, msg);
  }

  lemma UpdateIsDue(c: Config, s: System)
    requires LeaderThere(c, s)
    ensures Due(c, s, StateUpdate(c.p.leader, Sorted(s.nodes[c.p.leader].echoSigs.Keys)))
  {
    hide Sorted;
    ListedOnce(s.nodes[c.p.leader].echoSigs);
  }

  lemma FinalIsChecked(c: Config, s: System, n: NodeId, x: Data, msg: Msg)
    requires Due(c, s, Receive(n, c.p.leader, msg)) && GoodFinal(c, x, msg)
    ensures
      var r := VerifyFinal(x, msg.signers, msg.sigs);
      s.nodes[n].delivered || (n, r) in Next(c, s, Receive(n, c.p.leader, msg)).verifying
  {
    var r, receive := VerifyFinal(x, msg.signers, msg.sigs), Receive(n, c.p.leader, msg);
    assert !s.nodes[n].delivered ==> r in Handle(c, s, receive).1;
  }

  lemma CheckedIsDelivered(c: Config, s: System, n: NodeId, x: Data, msg: Msg)
    requires GoodFinal(c, x, msg) && Due(c, s, VerifyDone(n, VerifyFinal(x, msg.signers, msg.sigs)))
    ensures
      var t := Next(c, s, VerifyDone(n, VerifyFinal(x, msg.signers, msg.sigs)));
      n in t.nodes && t.nodes[n].delivered
  {
    hide AllValid;
  }

  lemma FinalIsReceived(c: Config, steps: seq<Step>, x: Data, n: NodeId, msg: Msg)
    requires Done(c, steps, x) && c.Correct(n) && n in Run(c, steps).nodes
    requires (c.p.leader, msg) in Run(c, steps).net && GoodFinal(c, x, msg)
    ensures
      || Run(c, steps).nodes[n].delivered
      || (n, VerifyFinal(x, msg.signers, msg.sigs)) in Run(c, steps).verifying
  {
    assert msg.Final?;
    hide Run, Inv, OnePayload, GoodFinal, Next, Happened;
    var receive := Receive(n, c.p.leader, msg);
    assert Due(c, Run(c, steps), receive);
    var i := WasDue(c, steps, receive);
    FinalIsChecked(c, Run(c, steps[..i]), n, x, msg);
    RunMono(c, steps, i);
  }

  lemma CheckingIsDone(c: Config, steps: seq<Step>, x: Data, n: NodeId, msg: Msg)
    requires Done(c, steps, x) && c.Correct(n) && n in Run(c, steps).nodes && GoodFinal(c, x, msg)
    requires (n, VerifyFinal(x, msg.signers, msg.sigs)) in Run(c, steps).verifying
    ensures Run(c, steps).nodes[n].delivered
  {
    hide Run, Inv, OnePayload, Next, Happened, AllValid;
    var verify := VerifyDone(n, VerifyFinal(x, msg.signers, msg.sigs));
    assert Due(c, Run(c, steps), verify);
    var i := WasDue(c, steps, verify);
    CheckedIsDelivered(c, Run(c, steps[..i]), n, x, msg);
  }

  lemma EverybodyDelivers(c: Config, steps: seq<Step>, x: Data, n: NodeId)
    requires c.Valid() && Done(c, steps, x) && c.Correct(n)
    ensures n in Run(c, steps).nodes && Run(c, steps).nodes[n].delivered
  {
    var msg := FinalIsSent(c, steps, x);
    DoneHas(c, steps, x);
    InNodes(c, Run(c, steps), n);
    assert msg.Final?;
    hide Run, Done, Inv, OnePayload, GoodFinal;
    FinalIsReceived(c, steps, x, n, msg);
    if (n, VerifyFinal(x, msg.signers, msg.sigs)) in Run(c, steps).verifying {
      CheckingIsDone(c, steps, x, n, msg);
    }
  }

  /** Validity: a correct leader was asked to broadcast x and nothing else, and nothing is left to do among correct
      nodes. Then every correct node has delivered, and what it has delivered is x if its certificate lists enough
      members. */
  lemma Validity(c: Config, steps: seq<Step>, x: Data, n: NodeId) returns (d: Delivery)
    requires c.Valid() && c.Correct(c.p.leader) && c.Correct(n)
    requires Asked(c, steps) != [] && AskedOnly(c, steps, x) && Quiet(c, steps)
    ensures d in Run(c, steps).deliveries && d.node == n
    ensures EnoughMembers(c, d.signers) ==> d.data == x
  {
    var s := Run(c, steps);
    RunKeepsOnePayload(c, steps, x);
    RunKeepsInv(c, steps);
    hide Run, Asked, EnoughMembers, Quiet, Inv, RequestIs, EchoesAre, ChecksAre, CollectedAre, FinalIs;
    EverybodyDelivers(c, steps, x, n);
    d :| d in s.deliveries && d.node == n;
    if EnoughMembers(c, d.signers) {
      Integrity(c, steps, d);
      OnlyAsked(c, s, x);
    }
  }

  lemma OnlyAsked(c: Config, s: System, x: Data)
    requires OnePayload(c, s, x)
    ensures s.broadcasts <= {x}
  {}

  // ---------------------------------------------------------------- one certificate

  ghost predicate OneFinal(c: Config, s: System) {
    && (forall m | m in s.net && c.Correct(m.0) && m.1.Final? :: m.0 in s.nodes && s.nodes[m.0].sentFinal)
    && (forall a, b | a in s.net && b in s.net && c.Correct(a.0) && a.0 == b.0 && a.1.Final? && b.1.Final? :: a == b)
  }

  lemma FinalsEffect(c: Config, s: System, step: Step)
    requires Acts(c, s, step)
    ensures
      var t, n := Next(c, s, step), step.n;
      && n in t.nodes && (s.nodes[n].sentFinal ==> t.nodes[n].sentFinal)
      && (forall m | m in t.net && m !in s.net && m.1.Final? ::
            m.0 == n && !s.nodes[n].sentFinal && t.nodes[n].sentFinal)
      && (forall a, b | a in t.net && b in t.net && a !in s.net && b !in s.net :: a == b)
  {
    hide SigsOf, AllValid;
  }

  lemma NextKeepsOneFinal(c: Config, s: System, step: Step)
    requires OneFinal(c, s)
    ensures OneFinal(c, Next(c, s, step))
  {
    if Acts(c, s, step) {
      hide Next, Enabled;
      Grows(c, s, step);
      FinalsEffect(c, s, step);
    }
  }

  /** In every run, whatever it is asked, a correct node puts out at most one certificate. */
  lemma {:induction false} CertifiesOnce(c: Config, steps: seq<Step>)
    ensures OneFinal(c, Run(c, steps))
    decreases |steps|
  {
    hide Next, OneFinal;
    if steps == [] {
      NoFinals(c);
    } else {
      CertifiesOnce(c, steps[..|steps| - 1]);
      NextKeepsOneFinal(c, Run(c, steps[..|steps| - 1]), steps[|steps| - 1]);
    }
  }

  lemma NoFinals(c: Config)
    ensures OneFinal(c, Run(c, []))
  {}

  // ---------------------------------------------------------------- asked differently

  /** The only member is the leader, and it is correct. */
  ghost predicate Alone(c: Config) {
    c.p.allNodes == [c.p.leader] && c.faulty == {}
  }

  /** A node that is alone has echoed one payload and does not count that echo: its request is another payload, or
      none. */
  ghost predicate Stuck(c: Config, s: System, echoed: Data) {
    var l := c.p.leader;
    && s.nodes.Keys == {l} && s.nodes[l].sentEcho && s.nodes[l].echoSigs == map[] && s.deliveries == {}
    && (s.nodes[l].request.None? || l in s.nodes[l].receivedEcho)
    && (forall m | m in s.net :: m.0 == l && !m.1.Final?)
    && (forall r | r in s.verifying ::
          r.1.VerifyEcho? && r.1.data != echoed && r.1.sig == Signed(l, echoed) && r.1.node == l)
  }

  lemma StuckIsStalled(c: Config, s: System, echoed: Data)
    requires Alone(c) && Stuck(c, s, echoed)
    ensures Stalled(c, s)
  {
    forall step | Due(c, s, step) ensures Next(c, s, step) == s {
      StuckStays(c, s, echoed, step);
    }
  }

  lemma StuckStays(c: Config, s: System, echoed: Data, step: Step)
    requires Alone(c) && Stuck(c, s, echoed) && Due(c, s, step)
    ensures Next(c, s, step) == s
  {
    var l := c.p.leader;
    assert step.n == l;
    if step.VerifyDone? {
      assert (step.n, step.request) in s.verifying;
    }
    if step.Receive? {
      assert (step.from, step.msg) in s.net;
    }
    var (st, out) := Handle(c, s, step);
    assert st == s.nodes[l] && out == {};
    EmitNothing(s, step);
  }

  lemma EmitNothing(s: System, step: Step)
    requires step.n in s.nodes && !step.Request?
    ensures Emit(s, step, s.nodes[step.n], {}) == s
  {}

  /** What the four kinds of step do to the system of a node l that is alone. */
  ghost function AskedFor(l: NodeId, s: System, payload: Option<Data>): System
    requires l in s.nodes
  {
    s.(nodes := s.nodes[l := s.nodes[l].(request := payload)], net := s.net + {(l, Start(Sent(payload)))},
       broadcasts := s.broadcasts + {Sent(payload)})
  }

  ghost function Started(l: NodeId, s: System, x: Data): System {
    s.(signing := s.signing + {(l, x)})
  }

  ghost function Echoed(l: NodeId, s: System, x: Data): System
    requires l in s.nodes
  {
    s.(nodes := s.nodes[l := s.nodes[l].(sentEcho := true)], net := s.net + {(l, Echo(Signed(l, x)))},
       sigs := s.sigs + {Signed(l, x)})
  }

  ghost function EchoChecked(l: NodeId, s: System, y: Data, sig: EchoSig): System
    requires l in s.nodes
  {
    s.(nodes := s.nodes[l := s.nodes[l].(receivedEcho := s.nodes[l].receivedEcho + {l})],
       verifying := s.verifying + {(l, VerifyEcho(y, sig, l))})
  }

  lemma AskOne(c: Config, s: System, payload: Option<Data>)
    requires Alone(c) && c.p.leader in s.nodes
    ensures Next(c, s, Request(c.p.leader, payload)) == AskedFor(c.p.leader, s, payload)
  {
    assert Handle(c, s, Request(c.p.leader, payload)).1 == {Send(Start(Sent(payload)), c.p.allNodes)};
  }

  lemma StartOne(c: Config, s: System, x: Data)
    requires Alone(c) && c.p.leader in s.nodes && !s.nodes[c.p.leader].sentEcho && (c.p.leader, Start(x)) in s.net
    ensures Next(c, s, Receive(c.p.leader, c.p.leader, Start(x))) == Started(c.p.leader, s, x)
  {
    assert Handle(c, s, Receive(c.p.leader, c.p.leader, Start(x))).1 == {SignRequest(x)};
  }

  lemma SignOne(c: Config, s: System, x: Data)
    requires Alone(c) && c.p.leader in s.nodes && !s.nodes[c.p.leader].sentEcho && (c.p.leader, x) in s.signing
    ensures Next(c, s, SignDone(c.p.leader, x)) == Echoed(c.p.leader, s, x)
  {
    var l := c.p.leader;
    assert Handle(c, s, SignDone(l, x)).1 == {Send(Echo(Signed(l, x)), [l])};
  }

  lemma EchoOne(c: Config, s: System, y: Data, sig: EchoSig)
    requires Alone(c) && c.p.leader in s.nodes && s.nodes[c.p.leader].request == Some(y)
    requires (c.p.leader, Echo(sig)) in s.net && c.p.leader !in s.nodes[c.p.leader].receivedEcho
    ensures Next(c, s, Receive(c.p.leader, c.p.leader, Echo(sig))) == EchoChecked(c.p.leader, s, y, sig)
  {
    var l := c.p.leader;
    assert Handle(c, s, Receive(l, l, Echo(sig))).1 == {VerifyEcho(y, sig, l)};
  }

  /** The leader is asked for a payload and echoes it. */
  ghost function FirstSteps(l: NodeId, payload: Option<Data>): seq<Step> {
    [] + [Request(l, payload)] + [Receive(l, l, Start(Sent(payload)))] + [SignDone(l, Sent(payload))]
  }

  ghost function Begun(l: NodeId): System {
    System(map[l := INIT], {}, {}, {}, {}, {}, {})
  }

  ghost function First(l: NodeId, payload: Option<Data>): System {
    Echoed(l, Started(l, AskedFor(l, Begun(l), payload), Sent(payload)), Sent(payload))
  }

  lemma AloneIsValid(c: Config)
    requires Alone(c)
    ensures c.Valid() && c.Correct(c.p.leader) && Run(c, []) == Begun(c.p.leader)
  {
    assert c.faulty * c.Members() == {};
    assert Init(c).nodes == map[c.p.leader := INIT];
  }

  lemma FirstEcho(c: Config, payload: Option<Data>)
    requires Alone(c)
    ensures Run(c, FirstSteps(c.p.leader, payload)) == First(c.p.leader, payload)
  {
    var l, x := c.p.leader, Sent(payload);
    AloneIsValid(c);
    hide Run, Next, Alone, Echoed;
    var ask, start, sign := Request(l, payload), Receive(l, l, Start(x)), SignDone(l, x);
    var s1 := AskedFor(l, Begun(l), payload);
    RunSnoc(c, [], ask);
    AskOne(c, Begun(l), payload);
    RunSnoc(c, [] + [ask], start);
    StartOne(c, s1, x);
    RunSnoc(c, [] + [ask] + [start], sign);
    SignOne(c, Started(l, s1, x), x);
  }

  lemma AskedOneMore(c: Config, steps: seq<Step>, last: Step)
    ensures Asked(c, steps + [last]) ==
              Asked(c, steps) + (if last.Request? && last.n == c.p.leader then [last.payload] else [])
  {
    assert (steps + [last])[..|steps|] == steps;
  }

  lemma AskedFirst(c: Config, payload: Option<Data>)
    ensures Asked(c, FirstSteps(c.p.leader, payload)) == [payload]
  {
    var l, x := c.p.leader, Sent(payload);
    var ask, start, sign := Request(l, payload), Receive(l, l, Start(x)), SignDone(l, x);
    assert Asked(c, []) == [];
    hide Asked;
    AskedOneMore(c, [], ask);
    var one := [] + [ask];
    assert Asked(c, one) == [payload];
    AskedOneMore(c, one, start);
    var two := one + [start];
    assert Asked(c, two) == [payload];
    AskedOneMore(c, two, sign);
  }

  lemma FirstHas(l: NodeId, x: Data)
    ensures
      var s := First(l, Some(x));
      l in s.nodes && (l, Echo(Signed(l, x))) in s.net && l !in s.nodes[l].receivedEcho
  {}

  lemma Again(c: Config, x: Data, y: Data) returns (steps: seq<Step>)
    requires Alone(c)
    ensures Asked(c, steps) == [Some(x), Some(y)]
    ensures
      var l := c.p.leader;
      Run(c, steps) == EchoChecked(l, AskedFor(l, First(l, Some(x)), Some(y)), y, Signed(l, x))
  {
    var l := c.p.leader;
    var first, again, receive := FirstSteps(l, Some(x)), Request(l, Some(y)), Receive(l, l, Echo(Signed(l, x)));
    steps := first + [again] + [receive];
    hide Run, Asked, Next, FirstSteps, First, EchoChecked, Alone;
    AskedFirst(c, Some(x));
    FirstEcho(c, Some(x));
    FirstHas(l, x);
    AskedOneMore(c, first, again);
    AskedOneMore(c, first + [again], receive);
    RunSnoc(c, first, again);
    AskOne(c, First(l, Some(x)), Some(y));
    RunSnoc(c, first + [again], receive);
    EchoOne(c, AskedFor(l, First(l, Some(x)), Some(y)), y, Signed(l, x));
  }

  lemma EchoIsWrong(c: Config, x: Data, y: Data)
    requires x != y
    ensures
      var l := c.p.leader;
      Stuck(c, EchoChecked(l, AskedFor(l, First(l, Some(x)), Some(y)), y, Signed(l, x)), x)
  {}

  /** Asking twice is not the same as asking for one of the payloads: a leader that is asked for x and, after its echo,
      for another payload never delivers anything, whatever is still done. */
  lemma AskedTwiceNeverDelivers(c: Config, x: Data, y: Data) returns (steps: seq<Step>)
    requires Alone(c) && x != y
    ensures c.Valid() && c.Correct(c.p.leader) && Asked(c, steps) == [Some(x), Some(y)]
    ensures Stalled(c, Run(c, steps)) && Run(c, steps).deliveries == {}
  {
    AloneIsValid(c);
    hide Run, Asked, Stalled, First, EchoChecked, AskedFor;
    steps := Again(c, x, y);
    EchoIsWrong(c, x, y);
    StuckIsStalled(c, Run(c, steps), x);
  }

  lemma NothingIsStuck(c: Config)
    ensures Stuck(c, First(c.p.leader, None), [])
  {}

  /** Nor does one that is asked for no data at all. */
  lemma AskedForNothingNeverDelivers(c: Config) returns (steps: seq<Step>)
    requires Alone(c)
    ensures c.Valid() && c.Correct(c.p.leader) && Asked(c, steps) == [None]
    ensures Stalled(c, Run(c, steps)) && Run(c, steps).deliveries == {}
  {
    AloneIsValid(c);
    AskedFirst(c, None);
    FirstEcho(c, None);
    hide Run, Asked, Stalled, First;
    steps := FirstSteps(c.p.leader, None);
    NothingIsStuck(c);
    StuckIsStalled(c, First(c.p.leader, None), []);
  }
}
