/** From agreed outcomes to transactions: the batch fetcher is fed by ISS (pkg/trantor/moduleconfig.go), so what the
    orderers decide and the availability layer stores determines the transactions the application gets. */
module TransactionOrder {
  import opened Types
  import opened BatchFetcher
  import opened BatchDedup
  import CP = ClientProgress
  import I = Iss
  import IssRuns
  import IssTheorems
  import IssOrder
  import IssRequests

  // ---------------------------------------------------------------- transactions behind certificates

  /** The transactions behind every availability certificate. */
  type Store = nat -> seq<Tx>

  /** The certificates whose transactions were requested, in order. */
  function Requested(inputs: seq<Input>): seq<nat> {
    if inputs == [] then []
    else
      var i := inputs[|inputs| - 1];
      Requested(inputs[..|inputs| - 1]) + (if i.OnDeliverCert? && !i.empty then [i.cert] else [])
  }

  /** The transactions behind the certificates delivered since the last restore. */
  function CertTxs(inputs: seq<Input>, store: Store): seq<Tx> {
    if inputs == [] then [] else WithInput(CertTxs(inputs[..|inputs| - 1], store), inputs[|inputs| - 1], store)
  }

  function WithInput(before: seq<Tx>, i: Input, store: Store): seq<Tx> {
    match i
    case OnRestore(_) => []
    case OnDeliverCert(cert, empty) => before + (if empty then [] else store(cert))
    case _ => before
  }

  /** Every answer of the availability layer is to a request and has what is stored for its certificate. */
  ghost predicate Answers(inputs: seq<Input>, store: Store) {
    var requested := Requested(inputs);
    forall i | i in inputs && i.OnProvide? :: i.request < |requested| && i.txs == store(requested[i.request])
  }

  function ContentOf(requested: seq<nat>, store: Store): Contents {
    (r: nat) => if r < |requested| then store(requested[r]) else []
  }

  function BatchTxs(evs: seq<Event>): seq<Tx> {
    if evs == [] then []
    else
      var ev := evs[|evs| - 1];
      BatchTxs(evs[..|evs| - 1]) + (if ev.OrderedBatch? then ev.txs else [])
  }

  lemma BatchTxsSnoc(evs: seq<Event>, ev: Event)
    ensures BatchTxs(evs + [ev]) == BatchTxs(evs) + (if ev.OrderedBatch? then ev.txs else [])
  {
    assert (evs + [ev])[..|evs|] == evs;
  }

  // ---------------------------------------------------------------- canonical output in transactions

  /** Deduplicating in two parts, the second on top of what the first has added. */
  lemma {:induction false} FirstOccurrencesConcat(p: CP.Progress, q: CP.Progress, a: seq<Tx>, b: seq<Tx>)
    requires forall k: Key :: HasKey(q, k) <==> HasKey(p, k) || k in Keys(a)
    ensures FirstOccurrences(p, a + b) == FirstOccurrences(p, a) + FirstOccurrences(q, b)
    decreases |b|
  {
    hide HasKey, Keys;
    if b == [] {
      assert a + b == a;
    } else {
      var init, last := b[..|b| - 1], b[|b| - 1];
      FirstOccurrencesConcat(p, q, a, init);
      KeysConcat(a, init);
      assert (a + b)[..|a + b| - 1] == a + init && (a + b)[|a + b| - 1] == last;
      assert HasKey(q, KeyOf(last)) <==> HasKey(p, KeyOf(last)) || KeyOf(last) in Keys(a);
    }
  }

  ghost predicate Adds(p: CP.Progress, q: CP.Progress, txs: seq<Tx>) {
    forall k: Key :: HasKey(q, k) <==> HasKey(p, k) || k in Keys(txs)
  }

  lemma AddsMore(p: CP.Progress, q: CP.Progress, r: CP.Progress, a: seq<Tx>, b: seq<Tx>)
    requires Adds(p, q, a) && Adds(q, r, b)
    ensures Adds(p, r, a + b)
  {
    hide HasKey, Keys;
    KeysConcat(a, b);
  }

  /** Emitting one event delivers the new transactions of a batch, and nothing otherwise. */
  lemma EmitDelivers(p: CP.Progress, epochNr: EpochNr, ev: Event)
    ensures
      var (q, out) := Emit(p, epochNr, ev);
      var txs := if ev.OrderedBatch? then ev.txs else [];
      DeliveredTxs(out) == FirstOccurrences(p, txs) && Adds(p, q, txs)
  {
    hide Filter, FirstOccurrences, HasKey, Keys, DeliveredTxs;
    var (q, out) := Emit(p, epochNr, ev);
    if ev.OrderedBatch? {
      FilterMeans(p, ev.txs);
      DeliveredOne(Filter(p, ev.txs).1);
    } else {
      NoBatches(out);
      NothingNew(p);
      forall k: Key ensures HasKey(q, k) <==> HasKey(p, k) || k in Keys([]) {
        Collected(p, k);
      }
    }
  }

  lemma NothingNew(p: CP.Progress)
    ensures FirstOccurrences(p, []) == [] && Keys([]) == []
  {}

  lemma Collected(p: CP.Progress, k: Key)
    ensures HasKey(CP.CollectAll(p), k) <==> HasKey(p, k)
    ensures Keys([]) == []
  {
    CP.CollectKeepsSet(p, k.0, k.1);
  }

  /** The canonical output delivers the first occurrences of the transactions in its batches. */
  lemma {:induction false} CanonicalTxs(p: CP.Progress, evs: seq<Event>)
    ensures DeliveredTxs(Canonical(p, evs)) == FirstOccurrences(p, BatchTxs(evs))
    ensures Adds(p, After(p, evs), BatchTxs(evs))
    decreases |evs|
  {
    hide Emit, DeliveredTxs, FirstOccurrences, HasKey, Keys;
    if evs == [] {
      NothingNew(p);
      NoBatches([]);
    } else {
      var init, ev := evs[..|evs| - 1], evs[|evs| - 1];
      CanonicalTxs(p, init);
      var q := After(p, init);
      var txs := if ev.OrderedBatch? then ev.txs else [];
      EmitDelivers(q, 0, ev);
      AddsMore(p, q, Emit(q, 0, ev).0, BatchTxs(init), txs);
      DeliveredConcat(Canonical(p, init), Emit(q, 0, ev).1);
      FirstOccurrencesConcat(p, q, BatchTxs(init), txs);
    }
  }

  // ---------------------------------------------------------------- one batch fetcher

  ghost predicate Provides(content: Contents, requested: seq<nat>, store: Store) {
    forall r | 0 <= r < |requested| :: content(r) == store(requested[r])
  }

  lemma ProvidesBefore(content: Contents, requested: seq<nat>, more: seq<nat>, store: Store)
    requires Provides(content, requested + more, store)
    ensures Provides(content, requested, store)
  {
    assert forall r | 0 <= r < |requested| :: (requested + more)[r] == requested[r];
  }

  /** The items made since the last restore stand for the transactions behind the certificates. */
  lemma {:induction false} ItemsStandForCerts(
      base: CP.Progress, inputs: seq<Input>, content: Contents, store: Store)
    requires Provides(content, Requested(inputs), store)
    ensures OrderOf(base, inputs).requests == |Requested(inputs)|
    ensures BatchTxs(Fill(OrderOf(base, inputs).items, content)) == CertTxs(inputs, store)
    decreases |inputs|
  {
    hide Fill, Filled, Provides, BatchTxs;
    if inputs == [] {
      NoItems(content);
    } else {
      var init, i := inputs[..|inputs| - 1], inputs[|inputs| - 1];
      ProvidesBefore(content, Requested(init), if i.OnDeliverCert? && !i.empty then [i.cert] else [], store);
      ItemsStandForCerts(base, init, content, store);
      OneMoreItem(OrderOf(base, init), i, content, store, Requested(init));
    }
  }

  lemma NoItems(content: Contents)
    ensures BatchTxs(Fill([], content)) == []
  {}

  lemma OneMoreItem(o: Order, i: Input, content: Contents, store: Store, requested: seq<nat>)
    requires o.requests == |requested|
    requires Provides(content, requested + (if i.OnDeliverCert? && !i.empty then [i.cert] else []), store)
    ensures BatchTxs(Fill(OrderAfter(o, i).items, content)) == WithInput(BatchTxs(Fill(o.items, content)), i, store)
  {
    hide Fill, BatchTxs;
    NoItems(content);
    var o1 := OrderAfter(o, i);
    if !i.OnRestore? && !i.OnProvide? {
      var item := o1.items[|o.items|];
      assert o1.items == o.items + [item];
      FillSnoc(o.items, item, content);
      BatchTxsSnoc(Fill(o.items, content), Filled(item, content));
      if i.OnDeliverCert? && !i.empty {
        assert (requested + [i.cert])[|requested|] == i.cert;
      }
    }
  }

  lemma {:induction false} VisibleDelivers(outs: seq<Out>)
    ensures DeliveredTxs(Visible(outs)) == DeliveredTxs(outs)
    decreases |outs|
  {
    if outs != [] {
      var init, last := outs[..|outs| - 1], outs[|outs| - 1];
      VisibleDelivers(init);
      DeliveredConcat(Visible(init), Erased(last));
      ErasedDelivers(last);
    }
  }

  lemma ErasedDelivers(o: Out)
    ensures DeliveredTxs(Erased(o)) == TxsIn(o)
  {
    if Erased(o) != [] {
      assert Erased(o)[..0] == [];
    }
  }

  lemma DeliveredPrefix(a: seq<Out>, b: seq<Out>)
    requires a <= b
    ensures DeliveredTxs(a) <= DeliveredTxs(b)
  {
    hide DeliveredTxs;
    DeliveredConcat(a, b[|a|..]);
    assert a + b[|a|..] == b;
  }

  /** Whatever the order of the answers, the transactions delivered since the last restore are the first occurrences,
      on top of the restored progress, of those behind the delivered certificates, up to some point; all of them once
      every request is answered. */
  lemma TransactionsAreCanonical(base: CP.Progress, epochNr: EpochNr, inputs: seq<Input>, store: Store)
    requires Answers(inputs, store)
    ensures
      var h, o := Play(base, epochNr, inputs), OrderOf(base, inputs);
      var canonical := FirstOccurrences(o.base, CertTxs(inputs, store));
      && DeliveredTxs(h.out) <= canonical
      && ((forall item | item in o.items && item.request.Some? :: item.request.value in h.answered) ==>
            DeliveredTxs(h.out) == canonical)
  {
    hide DeliveredTxs, FirstOccurrences, Canonical, Visible, Play, OrderOf, Fill, CertTxs, BatchTxs;
    var content := ContentOf(Requested(inputs), store);
    assert Provides(content, Requested(inputs), store);
    assert Consistent(inputs, content);
    ItemsStandForCerts(base, inputs, content, store);
    TimingIndependence(base, epochNr, inputs, content);
    AnswersDoNotOrder(base, inputs);
    var h, o := Play(base, epochNr, inputs), OrderOf(base, inputs);
    CanonicalTxs(o.base, Fill(o.items, content));
    VisibleDelivers(h.out);
    DeliveredPrefix(Visible(h.out), Canonical(o.base, Fill(o.items, content)));
  }

  // ---------------------------------------------------------------- fed by ISS

  function CertOf(data: I.SbData): nat {
    match data
    case Cert(id) => id
    case Unreadable(bits) => bits
  }

  /** What an event of ISS is for the batch fetcher. `instance` names the checkpoint instance of an epoch. */
  function FeedOne(e: I.Event, instance: EpochNr -> string): seq<Input> {
    match e
    case RestoreState(c) => [OnRestore(c)]
    case NewEpoch(nr) => [OnNewEpoch(nr, "iss")]
    case DeliverCert(_, cert) =>
      [if cert.None? then OnDeliverCert(0, true) else OnDeliverCert(CertOf(cert.value), false)]
    case SnapshotRequest(epoch) => [OnSnapshotRequest(instance(epoch))]
    case StableChkp(c) => [OnOther(c.sn)]
    case _ => []
  }

  function Feed(trace: seq<I.Event>, instance: EpochNr -> string): seq<Input> {
    if trace == [] then [] else Feed(trace[..|trace| - 1], instance) + FeedOne(trace[|trace| - 1], instance)
  }

  function StoredTxs(certs: seq<Option<I.SbData>>, store: Store): seq<Tx> {
    if certs == [] then []
    else
      var last := certs[|certs| - 1];
      StoredTxs(certs[..|certs| - 1], store) + (if last.Some? then store(CertOf(last.value)) else [])
  }

  lemma {:induction false} StoredConcat(a: seq<Option<I.SbData>>, b: seq<Option<I.SbData>>, store: Store)
    ensures StoredTxs(a + b, store) == StoredTxs(a, store) + StoredTxs(b, store)
    decreases |b|
  {
    if b == [] {
      assert a + b == a;
    } else {
      StoredConcat(a, b[..|b| - 1], store);
      assert (a + b)[..|a + b| - 1] == a + b[..|b| - 1];
    }
  }

  lemma FeedSnoc(inputs: seq<Input>, i: Input, base: CP.Progress, store: Store)
    ensures OrderOf(base, inputs + [i]) == OrderAfter(OrderOf(base, inputs), i)
    ensures CertTxs(inputs + [i], store) == WithInput(CertTxs(inputs, store), i, store)
  {
    assert (inputs + [i])[..|inputs|] == inputs;
  }

  /** What reaches the batch fetcher: the certificates and the progress to start from. */
  lemma {:induction false} FeedMeans(trace: seq<I.Event>, instance: EpochNr -> string, base: CP.Progress, store: Store)
    ensures CertTxs(Feed(trace, instance), store) == StoredTxs(IssOrder.DeliveredCerts(trace), store)
    ensures IssTheorems.LastRestored(trace).Some? ==>
      var c := IssTheorems.LastRestored(trace).value;
      && IssTheorems.Base(trace) == c.sn
      && OrderOf(base, Feed(trace, instance)).base == CP.AllFromPb(c.snapshot.epochData.clientProgress)
    decreases |trace|
  {
    hide OrderOf, CertTxs, StoredTxs, CP.AllFromPb;
    if trace == [] {
      NothingFed(store);
    } else {
      var init, last := trace[..|trace| - 1], trace[|trace| - 1];
      FeedMeans(init, instance, base, store);
      var more := FeedOne(last, instance);
      if more == [] {
        assert Feed(init, instance) + [] == Feed(init, instance);
      } else {
        FeedSnoc(Feed(init, instance), more[0], base, store);
      }
      if last.DeliverCert? {
        StoredSnoc(IssOrder.DeliveredCerts(init), last.cert, store);
      } else {
        NothingFed(store);
      }
    }
  }

  lemma NothingFed(store: Store)
    ensures CertTxs([], store) == [] && StoredTxs([], store) == []
  {}

  lemma StoredSnoc(certs: seq<Option<I.SbData>>, last: Option<I.SbData>, store: Store)
    ensures StoredTxs(certs + [last], store) ==
              StoredTxs(certs, store) + (if last.Some? then store(CertOf(last.value)) else [])
  {
    assert (certs + [last])[..|certs|] == certs;
  }

  // ---------------------------------------------------------------- two nodes

  /** A node: its run of ISS, how many of the events the batch fetcher has seen, and the batch fetcher's inputs. */
  datatype Replica = Replica(
    p: I.Params, start: StableCheckpoint, choose: I.Chooser, moves: seq<IssRuns.Move>, h: IssRuns.History, seen: nat,
    base: CP.Progress, epochNr: EpochNr, inputs: seq<Input>)
  {
    /** The batch fetcher gets the events of ISS, in order, and between them answers with the stored transactions. */
    ghost predicate Runs(instance: EpochNr -> string, store: Store) {
      && IssTheorems.Plays(p, start, choose, moves, h) && seen <= |h.trace|
      && OrderingInputs(inputs) == Feed(Trace(), instance) && Answers(inputs, store)
    }

    function Trace(): seq<I.Event>
      requires seen <= |h.trace|
    {
      h.trace[..seen]
    }

    /** The transactions the application got since the last restore. */
    function Txs(): seq<Tx> {
      DeliveredTxs(Play(base, epochNr, inputs).out)
    }
  }

  function DecidedFrom(decided: IssOrder.Decided, base: SeqNr, n: nat): seq<Option<I.SbData>> {
    seq(n, k requires 0 <= k < n => decided(base + k))
  }

  /** The certificates in any part of the trace are the decided ones from the restored checkpoint on. */
  lemma CertsAreDecided(r: Replica, decided: IssOrder.Decided)
    requires IssTheorems.Plays(r.p, r.start, r.choose, r.moves, r.h) && r.seen <= |r.h.trace|
    requires IssOrder.AllAgree(r.moves, decided)
    ensures
      var certs := IssOrder.DeliveredCerts(r.Trace());
      certs == DecidedFrom(decided, IssTheorems.Base(r.Trace()), |certs|)
  {
    hide IssRuns.Play, IssOrder.DeliveredCerts, IssTheorems.Base, IssTheorems.Delivered, IssOrder.CertsAgree;
    hide IssTheorems.EpochStart, IssTheorems.EpochSize, IssTheorems.CurrentEpoch;
    IssOrder.DeliversWhatWasDecided(r.p, r.start, r.choose, r.moves, decided);
    PartAgrees(r.h.trace, r.seen, decided);
    IssRuns.RunSeen(r.p, r.start, r.choose, r.moves);
    IssTheorems.PrefixAccepted(r.h.trace, r.seen);
    IssTheorems.ViewReadsTrace(r.Trace());
    IssOrder.CertsMatchNumbers(r.Trace(), decided);
  }

  lemma PartAgrees(trace: seq<I.Event>, n: nat, decided: IssOrder.Decided)
    requires n <= |trace| && IssOrder.CertsAgree(trace, decided)
    ensures IssOrder.CertsAgree(trace[..n], decided)
  {}

  lemma {:induction false} AnswersOnlyAnswer(base: CP.Progress, inputs: seq<Input>, store: Store)
    ensures CertTxs(OrderingInputs(inputs), store) == CertTxs(inputs, store)
    decreases |inputs|
  {
    if inputs != [] {
      var init, i := inputs[..|inputs| - 1], inputs[|inputs| - 1];
      AnswersOnlyAnswer(base, init, store);
      if i.OnProvide? {
        assert OrderingInputs(init) + [] == OrderingInputs(init);
      } else {
        FeedSnoc(OrderingInputs(init), i, base, store);
      }
    }
  }

  /** The application's transactions, from the decided outcomes and the stored transactions alone. */
  function DecidedTxs(decided: IssOrder.Decided, store: Store, c: StableCheckpoint, n: nat): seq<Tx> {
    FirstOccurrences(CP.AllFromPb(c.snapshot.epochData.clientProgress), StoredTxs(DecidedFrom(decided, c.sn, n), store))
  }

  /** What a node delivers is determined by the outcomes and the stored transactions, up to some point. */
  lemma TransactionsAreDecided(
      r: Replica, c: StableCheckpoint, instance: EpochNr -> string, store: Store, decided: IssOrder.Decided)
    returns (n: nat)
    requires r.Runs(instance, store) && IssOrder.AllAgree(r.moves, decided)
    requires IssTheorems.LastRestored(r.Trace()) == Some(c)
    ensures n == |IssOrder.DeliveredCerts(r.Trace())| && r.Txs() <= DecidedTxs(decided, store, c, n)
  {
    hide Play, DeliveredTxs, FirstOccurrences, OrderOf, CertTxs, Feed, StoredTxs, Answers, OrderingInputs;
    hide IssTheorems.LastRestored, IssTheorems.Plays, IssTheorems.Base, IssOrder.AllAgree, IssOrder.DeliveredCerts;
    hide DecidedFrom;
    n := |IssOrder.DeliveredCerts(r.Trace())|;
    CertsAreDecided(r, decided);
    FeedMeans(r.Trace(), instance, r.base, store);
    AnswersDoNotOrder(r.base, r.inputs);
    AnswersOnlyAnswer(r.base, r.inputs, store);
    TransactionsAreCanonical(r.base, r.epochNr, r.inputs, store);
  }

  lemma DecidedTxsGrow(decided: IssOrder.Decided, store: Store, c: StableCheckpoint, n: nat, m: nat)
    requires n <= m
    ensures DecidedTxs(decided, store, c, n) <= DecidedTxs(decided, store, c, m)
  {
    hide FirstOccurrences, StoredTxs, Keys, HasKey, Filter, CP.AllFromPb;
    var a, all := DecidedFrom(decided, c.sn, n), DecidedFrom(decided, c.sn, m);
    assert all == a + all[n..];
    StoredConcat(a, all[n..], store);
    var p := CP.AllFromPb(c.snapshot.epochData.clientProgress);
    FilterMeans(p, StoredTxs(a, store));
    FirstOccurrencesConcat(p, Filter(p, StoredTxs(a, store)).0, StoredTxs(a, store), StoredTxs(all[n..], store));
  }

  /** Two nodes that get the same outcomes for sequence numbers and the same transactions for certificates, and were
      restored from the same checkpoint, give their applications transactions of which one is a prefix of the other,
      however events and answers are timed. */
  lemma SameOutcomesSameTransactions(
      a: Replica, b: Replica, c: StableCheckpoint, d: StableCheckpoint,
      instance: EpochNr -> string, store: Store, decided: IssOrder.Decided)
    requires a.Runs(instance, store) && IssOrder.AllAgree(a.moves, decided)
    requires b.Runs(instance, store) && IssOrder.AllAgree(b.moves, decided)
    requires IssTheorems.LastRestored(a.Trace()) == Some(c) && IssTheorems.LastRestored(b.Trace()) == Some(d)
    requires c.sn == d.sn && c.snapshot == d.snapshot
    ensures a.Txs() <= b.Txs() || b.Txs() <= a.Txs()
  {
    hide Play, DeliveredTxs, DecidedTxs, IssTheorems.LastRestored, IssOrder.AllAgree;
    var n := TransactionsAreDecided(a, c, instance, store, decided);
    var m := TransactionsAreDecided(b, d, instance, store, decided);
    SameStart(decided, store, c, d, m);
    if n <= m {
      DecidedTxsGrow(decided, store, c, n, m);
    } else {
      DecidedTxsGrow(decided, store, c, m, n);
    }
  }

  lemma SameStart(decided: IssOrder.Decided, store: Store, c: StableCheckpoint, d: StableCheckpoint, n: nat)
    requires c.sn == d.sn && c.snapshot == d.snapshot
    ensures DecidedTxs(decided, store, c, n) == DecidedTxs(decided, store, d, n)
  {}

  /** The orderers of the node deliver what they agreed on, and its availability layer answers what it is asked. */
  ghost predicate Ordered(r: Replica, ordered: IssRequests.Ordered, verdicts: IssRequests.Verdicts) {
    IssRequests.OrderedRun(r.p, r.start, r.choose, r.moves, ordered, verdicts)
  }

  /** From the orderers to the application: two nodes whose orderers deliver the same data, whose availability layers
      come to the same verdicts and store the same transactions, and which were restored from the same checkpoint, give
      their applications transactions of which one is a prefix of the other. */
  lemma SameDeliveriesSameTransactions(
      a: Replica, b: Replica, c: StableCheckpoint, d: StableCheckpoint,
      instance: EpochNr -> string, store: Store, ordered: IssRequests.Ordered, verdicts: IssRequests.Verdicts)
    requires a.Runs(instance, store) && Ordered(a, ordered, verdicts)
    requires b.Runs(instance, store) && Ordered(b, ordered, verdicts)
    requires IssTheorems.LastRestored(a.Trace()) == Some(c) && IssTheorems.LastRestored(b.Trace()) == Some(d)
    requires c.sn == d.sn && c.snapshot == d.snapshot
    ensures a.Txs() <= b.Txs() || b.Txs() <= a.Txs()
  {
    hide Play, DeliveredTxs, IssTheorems.LastRestored, IssTheorems.Plays, IssOrder.AllAgree, IssRequests.OrderedRun;
    var decided := IssRequests.Due(ordered, verdicts);
    IssRequests.OrderedRunsAgree(a.p, a.start, a.choose, a.moves, a.h, ordered, verdicts);
    IssRequests.OrderedRunsAgree(b.p, b.start, b.choose, b.moves, b.h, ordered, verdicts);
    SameOutcomesSameTransactions(a, b, c, d, instance, store, decided);
  }
}
