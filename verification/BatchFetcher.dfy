/** The batch fetcher as functions of its state (pkg/batchfetcher/batchfetcher.go, outputqueue.go): events
    from the ordering protocol leave in order, certificates replaced by their transactions. */
module BatchFetcher {
  import opened Types
  import CP = ClientProgress

  datatype Tx = Tx(client: ClientId, no: TxNo, payload: Bytes)

  datatype Event =
    | NewEpoch(nr: EpochNr, protocol: string)
    | SnapshotRequest(replyTo: string)
    | OrderedBatch(txs: seq<Tx>)
    | Other(what: nat)

  datatype Out =
    | ToDest(ev: Event)
    | Restore(chkp: StableCheckpoint)
    | ToMempool(epoch: EpochNr, progress: map<ClientId, DeliveredPb>)
    | ToCheckpoint(epoch: EpochNr, progress: map<ClientId, DeliveredPb>)
    | RequestTxs(epoch: EpochNr, cert: nat, request: nat)

  /** An event waiting for output. One created for a certificate has a request number, the stand-in for
      the reference to the item that the program sends along with the request, and no event at first. */
  datatype Item = Item(request: Option<nat>, ev: Option<Event>)

  datatype State = State(items: seq<Item>, epochNr: EpochNr, progress: CP.Progress, requests: nat)

  datatype Input =
    | OnNewEpoch(nr: EpochNr, protocol: string)
    | OnDeliverCert(cert: nat, empty: bool)
    | OnSnapshotRequest(replyTo: string)
    | OnRestore(chkp: StableCheckpoint)
    | OnOther(what: nat)
    | OnProvide(request: nat, txs: seq<Tx>)

  // ---------------------------------------------------------------- output

  /** Keeps the transactions that were not delivered before and marks them as delivered. */
  function Filter(p: CP.Progress, txs: seq<Tx>): (CP.Progress, seq<Tx>) {
    if txs == [] then (p, [])
    else
      var (p1, kept) := Filter(p, txs[..|txs| - 1]);
      var tx := txs[|txs| - 1];
      (CP.Add(p1, tx.client, tx.no), if CP.Has(p1, tx.client, tx.no) then kept else kept + [tx])
  }

  /** Emits one event, after its output hook: batches are filtered, and the collected progress goes to
      the mempool with a new epoch and to the checkpoint module with a snapshot request. */
  function Emit(p: CP.Progress, epochNr: EpochNr, ev: Event): (CP.Progress, seq<Out>) {
    match ev
    case OrderedBatch(txs) => var (p1, kept) := Filter(p, txs); (p1, [ToDest(OrderedBatch(kept))])
    case NewEpoch(_, _) => var p1 := CP.CollectAll(p); (p1, [ToMempool(epochNr, CP.AllToPb(p1)), ToDest(ev)])
    case SnapshotRequest(_) => var p1 := CP.CollectAll(p); (p1, [ToCheckpoint(epochNr, CP.AllToPb(p1)), ToDest(ev)])
    case Other(_) => (p, [ToDest(ev)])
  }

  function Flush(s: State): (State, seq<Out>)
    decreases |s.items|
  {
    if s.items == [] || s.items[0].ev.None? then (s, [])
    else
      var (p1, out) := Emit(s.progress, s.epochNr, s.items[0].ev.value);
      var (s1, rest) := Flush(s.(items := s.items[1..], progress := p1));
      (s1, out + rest)
  }

  function EnqueueAndFlush(s: State, ev: Event): (State, seq<Out>) {
    Flush(s.(items := s.items + [Item(None, Some(ev))]))
  }

  function Answer(items: seq<Item>, request: nat, txs: seq<Tx>): seq<Item> {
    seq(|items|, i requires 0 <= i < |items| =>
      if items[i].request == Some(request) then items[i].(ev := Some(OrderedBatch(txs))) else items[i])
  }

  function Step(s: State, i: Input): (State, seq<Out>) {
    match i
    case OnNewEpoch(nr, protocol) => EnqueueAndFlush(s.(epochNr := nr), NewEpoch(nr, protocol))
    case OnDeliverCert(cert, empty) =>
      if empty then EnqueueAndFlush(s, OrderedBatch([]))
      else
        (s.(items := s.items + [Item(Some(s.requests), None)], requests := s.requests + 1),
         [RequestTxs(s.epochNr, cert, s.requests)])
    case OnSnapshotRequest(replyTo) => EnqueueAndFlush(s, SnapshotRequest(replyTo))
    case OnRestore(chkp) =>
      (s.(items := [], epochNr := chkp.Epoch(), progress := CP.AllFromPb(chkp.snapshot.epochData.clientProgress)),
       [Restore(chkp)])
    case OnOther(what) => EnqueueAndFlush(s, Other(what))
    case OnProvide(request, txs) => Flush(s.(items := Answer(s.items, request, txs)))
  }

  // ---------------------------------------------------------------- the canonical output

  /** What the ordering protocol's inputs alone determine: the progress last restored, the items since
      then, and how many requests were made. */
  datatype Order = Order(base: CP.Progress, items: seq<Item>, requests: nat)

  function OrderAfter(o: Order, i: Input): Order {
    match i
    case OnNewEpoch(nr, protocol) => o.(items := o.items + [Item(None, Some(NewEpoch(nr, protocol)))])
    case OnDeliverCert(cert, empty) =>
      if empty then o.(items := o.items + [Item(None, Some(OrderedBatch([])))])
      else o.(items := o.items + [Item(Some(o.requests), None)], requests := o.requests + 1)
    case OnSnapshotRequest(replyTo) => o.(items := o.items + [Item(None, Some(SnapshotRequest(replyTo)))])
    case OnRestore(chkp) => Order(CP.AllFromPb(chkp.snapshot.epochData.clientProgress), [], o.requests)
    case OnOther(what) => o.(items := o.items + [Item(None, Some(Other(what)))])
    case OnProvide(_, _) => o
  }

  function OrderOf(base: CP.Progress, inputs: seq<Input>): Order {
    if inputs == [] then Order(base, [], 0)
    else OrderAfter(OrderOf(base, inputs[..|inputs| - 1]), inputs[|inputs| - 1])
  }

  /** The availability layer's content: the transactions behind each request. */
  type Contents = nat -> seq<Tx>

  function Filled(item: Item, content: Contents): Event {
    match item.ev
    case Some(ev) => ev
    case None => OrderedBatch(match item.request case Some(r) => content(r) case None => [])
  }

  function Fill(items: seq<Item>, content: Contents): seq<Event> {
    seq(|items|, i requires 0 <= i < |items| => Filled(items[i], content))
  }

  function After(p: CP.Progress, evs: seq<Event>): CP.Progress {
    if evs == [] then p else Emit(After(p, evs[..|evs| - 1]), 0, evs[|evs| - 1]).0
  }

  /** All events emitted in order, each at once; side events carry no epoch number here. */
  function Canonical(p: CP.Progress, evs: seq<Event>): seq<Out> {
    if evs == [] then []
    else Canonical(p, evs[..|evs| - 1]) + Emit(After(p, evs[..|evs| - 1]), 0, evs[|evs| - 1]).1
  }

  /** The output as far as it is promised not to depend on timing: without the requests, and with the
      epoch numbers of side events left out, which are read when an event is output. */
  function Visible(outs: seq<Out>): seq<Out> {
    if outs == [] then [] else Visible(outs[..|outs| - 1]) + Erased(outs[|outs| - 1])
  }

  function Erased(o: Out): seq<Out> {
    match o
    case RequestTxs(_, _, _) => []
    case ToMempool(_, pb) => [ToMempool(0, pb)]
    case ToCheckpoint(_, pb) => [ToCheckpoint(0, pb)]
    case _ => [o]
  }

  lemma {:induction false} VisibleConcat(a: seq<Out>, b: seq<Out>)
    ensures Visible(a + b) == Visible(a) + Visible(b)
    decreases |b|
  {
    hide Erased;
    if b == [] {
      assert a + b == a;
    } else {
      var init, last := b[..|b| - 1], b[|b| - 1];
      VisibleConcat(a, init);
      assert (a + b)[..|a + b| - 1] == a + init && (a + b)[|a + b| - 1] == last;
      assert Visible(a) + Visible(init) + Erased(last) == Visible(a) + (Visible(init) + Erased(last));
    }
  }

  lemma {:induction false} CanonicalConcat(p: CP.Progress, a: seq<Event>, b: seq<Event>)
    ensures After(p, a + b) == After(After(p, a), b)
    ensures Canonical(p, a + b) == Canonical(p, a) + Canonical(After(p, a), b)
    decreases |b|
  {
    hide Emit;
    if b == [] {
      assert a + b == a;
    } else {
      CanonicalConcat(p, a, b[..|b| - 1]);
      assert (a + b)[..|a + b| - 1] == a + b[..|b| - 1];
    }
  }

  lemma CanonicalOne(p: CP.Progress, ev: Event)
    ensures Canonical(p, [ev]) == Emit(p, 0, ev).1 && After(p, [ev]) == Emit(p, 0, ev).0
  {
    hide Emit;
    assert [ev][..0] == [];
  }

  lemma EmitErased(p: CP.Progress, epochNr: EpochNr, ev: Event)
    ensures Visible(Emit(p, epochNr, ev).1) == Emit(p, 0, ev).1 && Emit(p, epochNr, ev).0 == Emit(p, 0, ev).0
  {
    hide Filter, CP.CollectAll, CP.AllToPb, Visible;
    var out := Emit(p, epochNr, ev).1;
    VisibleOne(out[0]);
    if |out| == 2 {
      VisibleOne(out[1]);
      VisibleConcat([out[0]], [out[1]]);
      assert out == [out[0]] + [out[1]];
    }
  }

  lemma VisibleOne(o: Out)
    ensures Visible([o]) == Erased(o)
  {
    assert [o][..0] == [];
  }

  /** Flushing moves canonical output from the queue to the outside. */
  lemma {:induction false} FlushIsCanonical(s: State, content: Contents)
    ensures
      var (s1, out) := Flush(s);
      && Visible(out) + Canonical(s1.progress, Fill(s1.items, content)) == Canonical(s.progress, Fill(s.items, content))
      && After(s1.progress, Fill(s1.items, content)) == After(s.progress, Fill(s.items, content))
      && |s1.items| <= |s.items| && s1.items == s.items[|s.items| - |s1.items|..]
      && (s1.items == [] || s1.items[0].ev.None?)
      && s1.requests == s.requests && s1.epochNr == s.epochNr
    decreases |s.items|
  {
    hide Emit, Canonical, After, Visible;
    if s.items == [] || s.items[0].ev.None? {
      assert Visible([]) == [] by {
        NothingVisible();
      }
    } else {
      var ev := s.items[0].ev.value;
      var (p1, out) := Emit(s.progress, s.epochNr, ev);
      var s0 := s.(items := s.items[1..], progress := p1);
      var (s1, rest) := Flush(s0);
      FlushIsCanonical(s0, content);
      CanonicalOne(s.progress, ev);
      EmitErased(s.progress, s.epochNr, ev);
      VisibleConcat(out, rest);
      assert Fill(s.items, content) == [ev] + Fill(s.items[1..], content);
      CanonicalConcat(s.progress, [ev], Fill(s.items[1..], content));
    }
  }

  lemma NothingVisible()
    ensures Visible([]) == []
  {}

  // ---------------------------------------------------------------- runs

  /** The output since the last restore, and the requests answered since they were made. */
  datatype History = History(s: State, out: seq<Out>, answered: set<nat>)

  function Play(base: CP.Progress, epochNr: EpochNr, inputs: seq<Input>): History {
    if inputs == [] then History(State([], epochNr, base, 0), [], {})
    else
      var h := Play(base, epochNr, inputs[..|inputs| - 1]);
      var i := inputs[|inputs| - 1];
      var (s1, out) := Step(h.s, i);
      History(s1, if i.OnRestore? then [] else h.out + out,
              if i.OnProvide? && i.request < h.s.requests then h.answered + {i.request} else h.answered)
  }

  /** All answers to a request carry the content behind it. */
  ghost predicate Consistent(inputs: seq<Input>, content: Contents) {
    forall i | i in inputs && i.OnProvide? :: i.txs == content(i.request)
  }

  ghost predicate GoodItem(item: Item, requests: nat, answered: set<nat>, content: Contents) {
    match item.request
    case None => item.ev.Some?
    case Some(r) =>
      && r < requests
      && (item.ev.Some? ==> item.ev.value == OrderedBatch(content(r)))
      && (item.ev.None? ==> r !in answered)
  }

  ghost predicate GoodItems(items: seq<Item>, requests: nat, answered: set<nat>, content: Contents) {
    forall item | item in items :: GoodItem(item, requests, answered, content)
  }

  ghost predicate FromOrder(items: seq<Item>, o: Order) {
    forall item | item in items && item.request.Some? :: Item(item.request, None) in o.items
  }

  ghost predicate Balanced(s: State, out: seq<Out>, o: Order, content: Contents) {
    && Visible(out) + Canonical(s.progress, Fill(s.items, content)) == Canonical(o.base, Fill(o.items, content))
    && After(s.progress, Fill(s.items, content)) == After(o.base, Fill(o.items, content))
  }

  ghost predicate Inv(h: History, o: Order, content: Contents) {
    && Balanced(h.s, h.out, o, content)
    && h.s.requests == o.requests && (forall r | r in h.answered :: r < o.requests)
    && (h.s.items == [] || h.s.items[0].ev.None?)
    && GoodItems(h.s.items, h.s.requests, h.answered, content)
    && FromOrder(h.s.items, o)
  }

  lemma FlushBalanced(s: State, out: seq<Out>, o: Order, content: Contents)
    requires Balanced(s, out, o, content)
    ensures Balanced(Flush(s).0, out + Flush(s).1, o, content)
  {
    hide Canonical, Visible, Fill, Flush;
    FlushIsCanonical(s, content);
    VisibleConcat(out, Flush(s).1);
    var (s1, out1) := Flush(s);
    assert Visible(out) + Visible(out1) + Canonical(s1.progress, Fill(s1.items, content))
        == Visible(out) + (Visible(out1) + Canonical(s1.progress, Fill(s1.items, content)));
  }

  lemma EnqueueBalanced(s: State, out: seq<Out>, o: Order, item: Item, content: Contents)
    requires Balanced(s, out, o, content)
    ensures Balanced(s.(items := s.items + [item]), out, o.(items := o.items + [item]), content)
  {
    hide Canonical, Visible, Fill, After, Filled;
    var ev := Filled(item, content);
    FillSnoc(s.items, item, content);
    FillSnoc(o.items, item, content);
    CanonicalConcat(s.progress, Fill(s.items, content), [ev]);
    CanonicalConcat(o.base, Fill(o.items, content), [ev]);
    var queued := Canonical(s.progress, Fill(s.items, content));
    var added := Canonical(After(o.base, Fill(o.items, content)), [ev]);
    assert Visible(out) + (queued + added) == Visible(out) + queued + added;
  }

  lemma FillSnoc(items: seq<Item>, item: Item, content: Contents)
    ensures Fill(items + [item], content) == Fill(items, content) + [Filled(item, content)]
  {
    hide Filled;
  }

  /** An answer that carries the content behind its request changes nothing in the canonical order. */
  lemma AnswerBalanced(s: State, out: seq<Out>, o: Order, answered: set<nat>, request: nat, content: Contents)
    requires Balanced(s, out, o, content) && GoodItems(s.items, s.requests, answered, content)
    ensures
      var s1 := s.(items := Answer(s.items, request, content(request)));
      && Balanced(s1, out, o, content)
      && GoodItems(s1.items, s.requests, answered + {request}, content)
  {
    hide Canonical, Visible;
    var items := Answer(s.items, request, content(request));
    forall i | 0 <= i < |items| ensures Filled(items[i], content) == Filled(s.items[i], content) {
      assert s.items[i] in s.items;
      assert GoodItem(s.items[i], s.requests, answered, content);
    }
    assert Fill(items, content) == Fill(s.items, content);
    forall item | item in items ensures GoodItem(item, s.requests, answered + {request}, content) {
      var i :| 0 <= i < |items| && items[i] == item;
      assert s.items[i] in s.items;
      assert GoodItem(s.items[i], s.requests, answered, content);
    }
  }

  lemma FlushKeepsItems(s: State, o: Order, answered: set<nat>, content: Contents)
    requires GoodItems(s.items, s.requests, answered, content) && FromOrder(s.items, o)
    ensures
      var s1 := Flush(s).0;
      && GoodItems(s1.items, s.requests, answered, content) && FromOrder(s1.items, o)
      && (s1.items == [] || s1.items[0].ev.None?) && s1.requests == s.requests
  {
    hide Canonical, Visible, Fill, GoodItem, After;
    FlushIsCanonical(s, content);
    var s1 := Flush(s).0;
    assert forall item | item in s1.items :: item in s.items;
  }

  lemma EnqueuedIsGood(h: History, o: Order, ev: Event, epochNr: EpochNr, content: Contents)
    requires Inv(h, o, content)
    ensures
      var (s1, out) := EnqueueAndFlush(h.s.(epochNr := epochNr), ev);
      Inv(History(s1, h.out + out, h.answered), o.(items := o.items + [Item(None, Some(ev))]), content)
  {
    hide Canonical, Visible, Fill, After, Flush;
    var item := Item(None, Some(ev));
    var s0, o1 := h.s.(epochNr := epochNr, items := h.s.items + [item]), o.(items := o.items + [item]);
    EnqueueBalanced(h.s.(epochNr := epochNr), h.out, o, item, content);
    FlushBalanced(s0, h.out, o1, content);
    FlushKeepsItems(s0, o1, h.answered, content);
  }

  lemma RequestIsGood(h: History, o: Order, cert: nat, content: Contents)
    requires Inv(h, o, content)
    ensures
      var i := OnDeliverCert(cert, false);
      var (s1, out) := Step(h.s, i);
      Inv(History(s1, h.out + out, h.answered), OrderAfter(o, i), content)
  {
    hide Canonical, Visible, Fill, After;
    EnqueueBalanced(h.s, h.out, o, Item(Some(h.s.requests), None), content);
    var request := RequestTxs(h.s.epochNr, cert, h.s.requests);
    VisibleConcat(h.out, [request]);
    VisibleOne(request);
    assert Visible(h.out) + [] == Visible(h.out);
  }

  lemma StepKeepsInv(h: History, o: Order, i: Input, content: Contents)
    requires Inv(h, o, content) && !i.OnRestore? && (i.OnProvide? ==> i.txs == content(i.request))
    ensures
      var (s1, out) := Step(h.s, i);
      var answered := if i.OnProvide? && i.request < h.s.requests then h.answered + {i.request} else h.answered;
      Inv(History(s1, h.out + out, answered), OrderAfter(o, i), content)
  {
    hide Balanced, EnqueueAndFlush, Flush, GoodItems, FromOrder;
    match i
    case OnNewEpoch(nr, protocol) => EnqueuedIsGood(h, o, NewEpoch(nr, protocol), nr, content);
    case OnDeliverCert(cert, empty) =>
      if empty {
        EnqueuedIsGood(h, o, OrderedBatch([]), h.s.epochNr, content);
      } else {
        RequestIsGood(h, o, cert, content);
      }
    case OnSnapshotRequest(replyTo) => EnqueuedIsGood(h, o, SnapshotRequest(replyTo), h.s.epochNr, content);
    case OnOther(what) => EnqueuedIsGood(h, o, Other(what), h.s.epochNr, content);
    case OnProvide(request, txs) => ProvideIsGood(h, o, request, content);
  }

  lemma ProvideIsGood(h: History, o: Order, request: nat, content: Contents)
    requires Inv(h, o, content)
    ensures
      var (s1, out) := Flush(h.s.(items := Answer(h.s.items, request, content(request))));
      var answered := if request < h.s.requests then h.answered + {request} else h.answered;
      Inv(History(s1, h.out + out, answered), o, content)
  {
    hide Balanced, Flush;
    var s0 := h.s.(items := Answer(h.s.items, request, content(request)));
    AnswerBalanced(h.s, h.out, o, h.answered, request, content);
    FlushBalanced(s0, h.out, o, content);
    var answered := if request < h.s.requests then h.answered + {request} else h.answered;
    assert GoodItems(s0.items, s0.requests, answered, content);
    FlushKeepsItems(s0, o, answered, content);
  }

  /** A restore starts over, with the restored progress. */
  lemma RestoreKeepsInv(h: History, o: Order, i: Input, content: Contents)
    requires Inv(h, o, content) && i.OnRestore?
    ensures Inv(History(Step(h.s, i).0, [], h.answered), OrderAfter(o, i), content)
  {
  }

  lemma {:induction false} PlayKeepsInv(base: CP.Progress, epochNr: EpochNr, inputs: seq<Input>, content: Contents)
    requires Consistent(inputs, content)
    ensures Inv(Play(base, epochNr, inputs), OrderOf(base, inputs), content)
    decreases |inputs|
  {
    hide Inv, Step;
    if inputs == [] {
      EmptyInv(base, epochNr, content);
    } else {
      var init, i := inputs[..|inputs| - 1], inputs[|inputs| - 1];
      PlayKeepsInv(base, epochNr, init, content);
      var h, o := Play(base, epochNr, init), OrderOf(base, init);
      assert i in inputs;
      if i.OnRestore? {
        RestoreKeepsInv(h, o, i, content);
      } else {
        StepKeepsInv(h, o, i, content);
      }
    }
  }

  lemma EmptyInv(base: CP.Progress, epochNr: EpochNr, content: Contents)
    ensures Inv(History(State([], epochNr, base, 0), [], {}), Order(base, [], 0), content)
  {}

  // ---------------------------------------------------------------- timing independence

  function OrderingInputs(inputs: seq<Input>): seq<Input> {
    if inputs == [] then []
    else
      var i := inputs[|inputs| - 1];
      OrderingInputs(inputs[..|inputs| - 1]) + (if i.OnProvide? then [] else [i])
  }

  /** The output that the ordering protocol's inputs and the content of the availability layer determine. */
  function CanonicalOutput(base: CP.Progress, ordering: seq<Input>, content: Contents): seq<Out> {
    var o := OrderOf(base, ordering);
    Canonical(o.base, Fill(o.items, content))
  }

  lemma {:induction false} AnswersDoNotOrder(base: CP.Progress, inputs: seq<Input>)
    ensures OrderOf(base, OrderingInputs(inputs)) == OrderOf(base, inputs)
    decreases |inputs|
  {
    if inputs != [] {
      var init, i := inputs[..|inputs| - 1], inputs[|inputs| - 1];
      AnswersDoNotOrder(base, init);
      if !i.OnProvide? {
        var ordering := OrderingInputs(inputs);
        assert ordering[..|ordering| - 1] == OrderingInputs(init);
      } else {
        assert OrderingInputs(inputs) == OrderingInputs(init);
      }
    }
  }

  /** However the answers of the availability layer interleave with the ordering protocol's events, the
      output since the last restore, including the progress submitted for checkpoints, is a prefix of
      the one canonical output. Once all requests since the restore are answered, it is all of it. */
  lemma TimingIndependence(base: CP.Progress, epochNr: EpochNr, inputs: seq<Input>, content: Contents)
    requires Consistent(inputs, content)
    ensures
      var h, canonical := Play(base, epochNr, inputs), CanonicalOutput(base, OrderingInputs(inputs), content);
      && Visible(h.out) <= canonical
      && ((forall item | item in OrderOf(base, inputs).items && item.request.Some? :: item.request.value in h.answered)
          ==> Visible(h.out) == canonical)
  {
    hide Canonical, Visible, Play, OrderOf, Fill, After;
    PlayKeepsInv(base, epochNr, inputs, content);
    AnswersDoNotOrder(base, inputs);
    var h, o := Play(base, epochNr, inputs), OrderOf(base, inputs);
    if h.s.items == [] {
      NothingLeft(h.s.progress, content);
      assert Visible(h.out) + [] == Visible(h.out);
    } else {
      SomethingUnanswered(h, o, content);
    }
  }

  /** Two nodes that see the same ordering events, with answers in different orders and possibly not all
      yet, have output of which one is a prefix of the other. */
  lemma SameOrderSameOutput(base: CP.Progress, e: EpochNr, f: EpochNr, a: seq<Input>, b: seq<Input>, content: Contents)
    requires OrderingInputs(a) == OrderingInputs(b) && Consistent(a, content) && Consistent(b, content)
    ensures
      var x, y := Visible(Play(base, e, a).out), Visible(Play(base, f, b).out);
      x <= y || y <= x
  {
    hide Play, Visible, OrderingInputs, CanonicalOutput, OrderOf, Consistent;
    TimingIndependence(base, e, a, content);
    TimingIndependence(base, f, b, content);
  }

  lemma SomethingUnanswered(h: History, o: Order, content: Contents)
    requires Inv(h, o, content) && h.s.items != []
    ensures exists item | item in o.items :: item.request.Some? && item.request.value !in h.answered
  {
    hide Balanced;
    var first := h.s.items[0];
    assert first in h.s.items && GoodItem(first, h.s.requests, h.answered, content);
    assert Item(first.request, None) in o.items;
  }

  lemma NothingLeft(p: CP.Progress, content: Contents)
    ensures Canonical(p, Fill([], content)) == []
  {}
}
