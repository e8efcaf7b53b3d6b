/** Signed Echo Broadcast at one node (pkg/bcb/bcbmodule.go). */
module Bcb {
  import opened Lists
  import opened Quorums
  import opened Types

  type Data = Bytes
  type EchoSig = Signature<Data>

  datatype Params = Params(allNodes: seq<NodeId>, leader: NodeId) {
    function N(): nat { |allNodes| }
    // Integer division in the program truncates, so an empty list tolerates zero faults.
    function F(): nat { if N() == 0 then 0 else (N() - 1) / 3 }
    function Threshold(): nat { (N() + F()) / 2 }
  }

  datatype Msg =
    | Start(data: Data)
    | Echo(sig: EchoSig)
    | Final(data: Data, signers: seq<NodeId>, sigs: seq<EchoSig>)

  datatype Output =
    | Fail
    | Send(msg: Msg, dest: seq<NodeId>)
    | SignRequest(data: Data)
    | VerifyEcho(data: Data, sig: EchoSig, node: NodeId)
    | VerifyFinal(data: Data, signers: seq<NodeId>, sigs: seq<EchoSig>)
    | Deliver(data: Data)

  datatype State = State(
    request: Option<Data>, sentEcho: bool, sentFinal: bool, delivered: bool,
    receivedEcho: set<NodeId>, echoSigs: map<NodeId, EchoSig>)

  const INIT := State(None, false, false, false, {}, map[])

  // ---------------------------------------------------------------- handlers, as functions of the state

  /** Missing data is sent as empty data. */
  function Sent(data: Option<Data>): Data {
    if data.Some? then data.value else []
  }

  function OnBroadcast(p: Params, self: NodeId, s: State, data: Option<Data>): (State, set<Output>) {
    if self != p.leader then (s, {Fail})
    else (s.(request := data), {Send(Start(Sent(data)), p.allNodes)})
  }

  function OnStart(p: Params, s: State, from: NodeId, data: Data): (State, set<Output>) {
    (s, if from == p.leader && !s.sentEcho then {SignRequest(data)} else {})
  }

  function OnSigned(p: Params, s: State, sig: EchoSig): (State, set<Output>) {
    if s.sentEcho then (s, {})
    else (s.(sentEcho := true), {Send(Echo(sig), [p.leader])})
  }

  function OnEcho(p: Params, self: NodeId, s: State, from: NodeId, sig: EchoSig): (State, set<Output>) {
    if self == p.leader && from !in s.receivedEcho && s.request.Some? then
      (s.(receivedEcho := s.receivedEcho + {from}), {VerifyEcho(s.request.value, sig, from)})
    else (s, {})
  }

  function OnEchoVerified(s: State, node: NodeId, valid: bool, sig: EchoSig): (State, set<Output>) {
    (if valid then s.(echoSigs := s.echoSigs[node := sig]) else s, {})
  }

  /** The order in which the certificate lists the collected echoes is up to the map iteration. */
  ghost predicate Enumerates(order: seq<NodeId>, sigs: map<NodeId, EchoSig>) {
    Distinct(order) && Elements(order) == sigs.Keys
  }

  function SigsOf(sigs: map<NodeId, EchoSig>, order: seq<NodeId>): seq<EchoSig>
    requires forall n | n in order :: n in sigs
  {
    if order == [] then []
    else SigsOf(sigs, order[..|order| - 1]) + [sigs[order[|order| - 1]]]
  }

  /** The keys and values of the echo map, in the same arbitrary order (maputil.GetKeysAndValues). */
  method KeysAndValues(m: map<NodeId, EchoSig>) returns (keys: seq<NodeId>, values: seq<EchoSig>)
    ensures Enumerates(keys, m) && values == SigsOf(m, keys)
  {
    keys, values := [], [];
    var rest := m.Keys;
    while rest != {}
      invariant rest <= m.Keys && Distinct(keys) && Elements(keys) == m.Keys - rest
      invariant (forall n | n in keys :: n in Elements(keys)) && values == SigsOf(m, keys)
    {
      var n: NodeId :| n in rest;
      assert Elements(keys + [n]) == Elements(keys) + {n};
      assert (keys + [n])[..|keys|] == keys;
      keys, values := keys + [n], values + [m[n]];
      rest := rest - {n};
    }
  }

  function OnStateUpdate(p: Params, s: State, order: seq<NodeId>): (State, set<Output>)
    requires forall n | n in order :: n in s.echoSigs
  {
    if |s.echoSigs| > p.Threshold() && !s.sentFinal then
      (s.(sentFinal := true), {Send(Final(Sent(s.request), order, SigsOf(s.echoSigs, order)), p.allNodes)})
    else (s, {})
  }

  function OnFinal(p: Params, s: State, data: Data, signers: seq<NodeId>, sigs: seq<EchoSig>): (State, set<Output>) {
    (s, if |signers| == |sigs| && |signers| > p.Threshold() && !s.delivered
        then {VerifyFinal(data, signers, sigs)} else {})
  }

  function OnFinalVerified(s: State, allOk: bool, data: Data): (State, set<Output>) {
    if allOk && !s.delivered then (s.(delivered := true), {Deliver(data)})
    else (s, {})
  }

  // ---------------------------------------------------------------- the module

  class Module {
    const p: Params
    const self: NodeId
    var request: Option<Data>
    var sentEcho: bool
    var sentFinal: bool
    var delivered: bool
    var receivedEcho: set<NodeId>
    var echoSigs: map<NodeId, EchoSig>

    ghost function St(): State
      reads this
    {
      State(request, sentEcho, sentFinal, delivered, receivedEcho, echoSigs)
    }

    constructor (p: Params, self: NodeId)
      ensures this.p == p && this.self == self && St() == INIT
    {
      this.p, this.self := p, self;
      request, sentEcho, sentFinal, delivered := None, false, false, false;
      receivedEcho, echoSigs := {}, map[];
    }

    method UponBroadcastRequest(data: Option<Data>) returns (out: set<Output>)
      modifies this`request
      ensures (St(), out) == OnBroadcast(p, self, old(St()), data)
    {
      if self != p.leader {
        return {Fail};
      }
      request := data;
      out := {Send(Start(Sent(data)), p.allNodes)};
    }

    method UponStartMessage(from: NodeId, data: Data) returns (out: set<Output>)
      ensures (St(), out) == OnStart(p, old(St()), from, data)
    {
      out := {};
      if from == p.leader && !sentEcho {
        out := {SignRequest(data)};
      }
    }

    method UponSignResult(sig: EchoSig) returns (out: set<Output>)
      modifies this`sentEcho
      ensures (St(), out) == OnSigned(p, old(St()), sig)
    {
      out := {};
      if !sentEcho {
        sentEcho := true;
        out := {Send(Echo(sig), [p.leader])};
      }
    }

    method UponEchoMessage(from: NodeId, sig: EchoSig) returns (out: set<Output>)
      modifies this`receivedEcho
      ensures (St(), out) == OnEcho(p, self, old(St()), from, sig)
    {
      out := {};
      if self == p.leader && from !in receivedEcho && request.Some? {
        receivedEcho := receivedEcho + {from};
        out := {VerifyEcho(request.value, sig, from)};
      }
    }

    method UponSigVerified(node: NodeId, valid: bool, sig: EchoSig) returns (out: set<Output>)
      modifies this`echoSigs
      ensures (St(), out) == OnEchoVerified(old(St()), node, valid, sig)
    {
      if valid {
        echoSigs := echoSigs[node := sig];
      }
      out := {};
    }

    /** Runs after every batch of events. */
    method UponStateUpdates() returns (out: set<Output>, ghost order: seq<NodeId>)
      modifies this`sentFinal
      ensures Enumerates(order, old(echoSigs)) && (St(), out) == OnStateUpdate(p, old(St()), order)
    {
      var keys, sigs := KeysAndValues(echoSigs);
      order, out := keys, {};
      if |echoSigs| > p.Threshold() && !sentFinal {
        sentFinal := true;
        out := {Send(Final(Sent(request), keys, sigs), p.allNodes)};
      }
    }

    method UponFinalMessage(data: Data, signers: seq<NodeId>, sigs: seq<EchoSig>) returns (out: set<Output>)
      ensures (St(), out) == OnFinal(p, old(St()), data, signers, sigs)
    {
      out := {};
      if |signers| == |sigs| && |signers| > p.Threshold() && !delivered {
        out := {VerifyFinal(data, signers, sigs)};
      }
    }

    method UponSigsVerified(allOk: bool, data: Data) returns (out: set<Output>)
      modifies this`delivered
      ensures (St(), out) == OnFinalVerified(old(St()), allOk, data)
    {
      out := {};
      if allOk && !delivered {
        delivered := true;
        out := {Deliver(data)};
      }
    }
  }
}
