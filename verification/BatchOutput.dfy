/** What leaves the batch fetcher, item by item (pkg/batchfetcher/batchfetcher.go, outputqueue.go): the events in the
    order in which they came in, the side events right before them, and the progress those carry. */
module BatchOutput {
  import opened Lists
  import opened Types
  import opened BatchFetcher
  import opened BatchDedup
  import CP = ClientProgress
  import SortedKeys
  import TO = TransactionOrder

  // ---------------------------------------------------------------- the progress in side events

  predicate Side(o: Out) {
    o.ToMempool? || o.ToCheckpoint?
  }

  /** The serialised progress stands for the restored transactions and those delivered in `outs`, in the form that
      garbage collection leaves it in. */
  ghost predicate Summarises(base: CP.Progress, outs: seq<Out>, pb: map<ClientId, DeliveredPb>) {
    && (forall k: Key :: HasKey(CP.AllFromPb(pb), k) <==> HasKey(base, k) || k in Keys(DeliveredTxs(outs)))
    && (forall c | c in pb :: Ascending(pb[c].delivered) && pb[c].lowWm !in pb[c].delivered)
    && (CP.Sound(base) ==> CP.Normal(CP.AllFromPb(pb)))
  }

  ghost predicate SidesSummarise(base: CP.Progress, outs: seq<Out>) {
    forall i | 0 <= i < |outs| && Side(outs[i]) :: Summarises(base, outs[..i], outs[i].progress)
  }

  ghost predicate Submits(base: CP.Progress, p: CP.Progress, outs: seq<Out>) {
    Once(base, p, outs) && SidesSummarise(base, outs) && (CP.Sound(base) ==> CP.Sound(p))
  }

  lemma CollectedSummarises(base: CP.Progress, p: CP.Progress, outs: seq<Out>)
    requires Submits(base, p, outs)
    ensures Summarises(base, outs, CP.AllToPb(CP.CollectAll(p)))
    ensures CP.Sound(base) ==> CP.Sound(CP.CollectAll(p))
  {
    hide Keys, DeliveredTxs, SidesSummarise, CP.Collect;
    var q := CP.CollectAll(p);
    var pb := CP.AllToPb(q);
    CP.PbRoundTrip(q);
    forall k: Key ensures HasKey(CP.AllFromPb(pb), k) <==> HasKey(base, k) || k in Keys(DeliveredTxs(outs)) {
      CP.CollectKeepsSet(p, k.0, k.1);
      assert HasKey(p, k) <==> HasKey(base, k) || k in Keys(DeliveredTxs(outs));
    }
    forall c | c in pb ensures Ascending(pb[c].delivered) && pb[c].lowWm !in pb[c].delivered {
      SortedKeys.SortedAscends(q[c].delivered);
      CP.CollectMeans(p[c]);
    }
    if CP.Sound(base) {
      CP.TrackingKeepsSound(p, "", 0);
    }
  }

  lemma {:induction false} FilterKeepsSound(p: CP.Progress, txs: seq<Tx>)
    requires CP.Sound(p)
    ensures CP.Sound(Filter(p, txs).0)
    decreases |txs|
  {
    hide CP.Sound, CP.Add;
    if txs != [] {
      FilterKeepsSound(p, txs[..|txs| - 1]);
      var tx := txs[|txs| - 1];
      CP.TrackingKeepsSound(Filter(p, txs[..|txs| - 1]).0, tx.client, tx.no);
    }
  }

  /** One more event, with or without a side event before it. */
  lemma OneMoreSummarised(base: CP.Progress, outs: seq<Out>, more: seq<Out>)
    requires SidesSummarise(base, outs)
    requires forall i | 0 < i < |more| :: !Side(more[i])
    requires more != [] && Side(more[0]) ==> Summarises(base, outs, more[0].progress)
    ensures SidesSummarise(base, outs + more)
  {
    hide Summarises;
    var all := outs + more;
    forall i | 0 <= i < |all| && Side(all[i]) ensures Summarises(base, all[..i], all[i].progress) {
      if i < |outs| {
        assert all[..i] == outs[..i];
      } else {
        assert all[i] == more[i - |outs|];
        assert all[..|outs|] == outs;
      }
    }
  }

  lemma EmitSubmits(base: CP.Progress, p: CP.Progress, outs: seq<Out>, epochNr: EpochNr, ev: Event)
    requires Submits(base, p, outs)
    ensures Submits(base, Emit(p, epochNr, ev).0, outs + Emit(p, epochNr, ev).1)
  {
    hide Once, Summarises, Filter, CP.Sound, CP.CollectAll, CP.AllToPb, SidesSummarise;
    EmitKeepsOnce(base, p, outs, epochNr, ev);
    if ev.OrderedBatch? && CP.Sound(base) {
      FilterKeepsSound(p, ev.txs);
    }
    CollectedSummarises(base, p, outs);
    OneMoreSummarised(base, outs, Emit(p, epochNr, ev).1);
  }

  lemma {:induction false} FlushSubmits(base: CP.Progress, s: State, outs: seq<Out>)
    requires Submits(base, s.progress, outs)
    ensures Submits(base, Flush(s).0.progress, outs + Flush(s).1)
    decreases |s.items|
  {
    hide Submits, Emit;
    if s.items == [] || s.items[0].ev.None? {
      assert outs + [] == outs;
    } else {
      var (p1, out) := Emit(s.progress, s.epochNr, s.items[0].ev.value);
      EmitSubmits(base, s.progress, outs, s.epochNr, s.items[0].ev.value);
      var s0 := s.(items := s.items[1..], progress := p1);
      FlushSubmits(base, s0, outs + out);
      assert outs + out + Flush(s0).1 == outs + (out + Flush(s0).1);
    }
  }

  lemma RequestSubmits(base: CP.Progress, s: State, cert: nat, outs: seq<Out>)
    requires Submits(base, s.progress, outs)
    ensures Submits(base, s.progress, outs + [RequestTxs(s.epochNr, cert, s.requests)])
  {
    hide Once, Flush, CP.Sound, SidesSummarise;
    StepKeepsOnce(base, s, OnDeliverCert(cert, false), outs);
    OneMoreSummarised(base, outs, [RequestTxs(s.epochNr, cert, s.requests)]);
  }

  lemma StepSubmits(base: CP.Progress, s: State, i: Input, outs: seq<Out>)
    requires Submits(base, s.progress, outs) && !i.OnRestore?
    ensures Submits(base, Step(s, i).0.progress, outs + Step(s, i).1)
  {
    hide Submits, Flush;
    match i
    case OnNewEpoch(nr, protocol) =>
      FlushSubmits(base, s.(epochNr := nr, items := s.items + [Item(None, Some(NewEpoch(nr, protocol)))]), outs);
    case OnDeliverCert(cert, empty) =>
      if empty {
        FlushSubmits(base, s.(items := s.items + [Item(None, Some(OrderedBatch([])))]), outs);
      } else {
        RequestSubmits(base, s, cert, outs);
      }
    case OnSnapshotRequest(replyTo) =>
      FlushSubmits(base, s.(items := s.items + [Item(None, Some(SnapshotRequest(replyTo)))]), outs);
    case OnOther(what) =>
      FlushSubmits(base, s.(items := s.items + [Item(None, Some(Other(what)))]), outs);
    case OnProvide(request, txs) =>
      FlushSubmits(base, s.(items := Answer(s.items, request, txs)), outs);
  }

  lemma NothingSubmitted(base: CP.Progress)
    ensures Submits(base, base, [])
  {
    NothingOnce(base);
  }

  /** In every run, whatever the answers, every progress handed to the mempool or to a checkpoint stands for exactly the
      restored transactions and those delivered before it. */
  lemma {:induction false} ProgressIsExact(base: CP.Progress, epochNr: EpochNr, inputs: seq<Input>)
    ensures
      var h := Play(base, epochNr, inputs);
      Submits(OrderOf(base, inputs).base, h.s.progress, h.out)
    decreases |inputs|
  {
    hide Submits, Step;
    if inputs == [] {
      NothingSubmitted(base);
    } else {
      var init, i := inputs[..|inputs| - 1], inputs[|inputs| - 1];
      ProgressIsExact(base, epochNr, init);
      var h := Play(base, epochNr, init);
      if i.OnRestore? {
        RestoreStartsOver(h.s, i);
        NothingSubmitted(Step(h.s, i).0.progress);
      } else {
        StepSubmits(OrderOf(base, init).base, h.s, i, h.out);
      }
    }
  }

  lemma RestoreStartsOver(s: State, i: Input)
    requires i.OnRestore?
    ensures Step(s, i).0.progress == CP.AllFromPb(i.chkp.snapshot.epochData.clientProgress)
  {}

  /** A node that restores what another one submitted for a checkpoint delivers none of the transactions that the other
      one delivered before, nor any that were restored there. */
  lemma RestoringSkipsDelivered(
      base: CP.Progress, epochNr: EpochNr, inputs: seq<Input>, i: nat,
      chkp: StableCheckpoint, base': CP.Progress, epochNr': EpochNr, inputs': seq<Input>, k: Key)
    requires i < |Play(base, epochNr, inputs).out| && Play(base, epochNr, inputs).out[i].ToCheckpoint?
    requires chkp.snapshot.epochData.clientProgress == Play(base, epochNr, inputs).out[i].progress
    requires OrderOf(base', inputs').base == CP.AllFromPb(chkp.snapshot.epochData.clientProgress)
    requires
      || k in Keys(DeliveredTxs(Play(base, epochNr, inputs).out[..i]))
      || HasKey(OrderOf(base, inputs).base, k)
    ensures k !in Keys(DeliveredTxs(Play(base', epochNr', inputs').out))
  {
    hide Play, OrderOf, Keys, DeliveredTxs, HasKey, CP.AllFromPb, CP.Sound;
    ProgressIsExact(base, epochNr, inputs);
    var outs := Play(base, epochNr, inputs).out;
    assert Side(outs[i]);
    assert Summarises(OrderOf(base, inputs).base, outs[..i], outs[i].progress);
    AtMostOnce(base', epochNr', inputs');
  }

  // ---------------------------------------------------------------- the events, in order

  /** The events that go on to the application. */
  function Dests(outs: seq<Out>): seq<Event> {
    if outs == [] then []
    else
      var last := outs[|outs| - 1];
      Dests(outs[..|outs| - 1]) + (if last.ToDest? then [last.ev] else [])
  }

  lemma {:induction false} DestsConcat(a: seq<Out>, b: seq<Out>)
    ensures Dests(a + b) == Dests(a) + Dests(b)
    decreases |b|
  {
    if b == [] {
      assert a + b == a;
    } else {
      DestsConcat(a, b[..|b| - 1]);
      assert (a + b)[..|a + b| - 1] == a + b[..|b| - 1];
    }
  }

  lemma DestsOne(o: Out)
    ensures Dests([o]) == if o.ToDest? then [o.ev] else []
  {
    assert [o][..0] == [];
  }

  lemma {:induction false} VisibleDests(outs: seq<Out>)
    ensures Dests(Visible(outs)) == Dests(outs)
    decreases |outs|
  {
    if outs != [] {
      var init, last := outs[..|outs| - 1], outs[|outs| - 1];
      VisibleDests(init);
      DestsConcat(Visible(init), Erased(last));
      if Erased(last) != [] {
        DestsOne(Erased(last)[0]);
      }
    }
  }

  /** The event that came in leaves as it is, and a batch with those of its transactions that are new. */
  ghost predicate Carries(base: CP.Progress, evs: seq<Event>, j: nat, d: Event)
    requires j < |evs|
  {
    if evs[j].OrderedBatch? then
      && d.OrderedBatch?
      && FirstOccurrences(base, TO.BatchTxs(evs[..j + 1])) == FirstOccurrences(base, TO.BatchTxs(evs[..j])) + d.txs
    else d == evs[j]
  }

  lemma EmitCarries(p: CP.Progress, ev: Event)
    ensures
      var dests := Dests(Emit(p, 0, ev).1);
      && |dests| == 1
      && if ev.OrderedBatch? then dests[0] == OrderedBatch(FirstOccurrences(p, ev.txs)) else dests[0] == ev
  {
    hide Filter, FirstOccurrences, CP.CollectAll, CP.AllToPb, Dests;
    var out := Emit(p, 0, ev).1;
    DestsOne(out[0]);
    if ev.OrderedBatch? {
      FilterMeans(p, ev.txs);
    }
    if |out| == 2 {
      DestsOne(out[1]);
      DestsConcat([out[0]], [out[1]]);
      assert out == [out[0]] + [out[1]];
    }
  }

  lemma {:induction false} CanonicalCarries(p: CP.Progress, evs: seq<Event>)
    ensures |Dests(Canonical(p, evs))| == |evs|
    ensures forall j | 0 <= j < |evs| :: Carries(p, evs, j, Dests(Canonical(p, evs))[j])
    decreases |evs|
  {
    hide Emit, Dests, FirstOccurrences, Carries, TO.BatchTxs;
    if evs == [] {
      NoDests();
    } else {
      var init, ev := evs[..|evs| - 1], evs[|evs| - 1];
      CanonicalCarries(p, init);
      var q, n := After(p, init), |init|;
      EmitCarries(q, ev);
      DestsConcat(Canonical(p, init), Emit(q, 0, ev).1);
      var dests := Dests(Canonical(p, evs));
      LastCarries(p, init, ev, dests[n]);
      assert evs == init + [ev];
      forall j | 0 <= j < |evs| ensures Carries(p, evs, j, dests[j]) {
        if j < n {
          CarriesSame(p, init, ev, j, dests[j]);
        }
      }
    }
  }

  lemma NoDests()
    ensures Dests([]) == []
  {}

  lemma CarriesSame(p: CP.Progress, evs: seq<Event>, ev: Event, j: nat, d: Event)
    requires j < |evs| && Carries(p, evs, j, d)
    ensures Carries(p, evs + [ev], j, d)
  {
    assert (evs + [ev])[..j + 1] == evs[..j + 1] && (evs + [ev])[..j] == evs[..j];
  }

  lemma LastCarries(p: CP.Progress, evs: seq<Event>, ev: Event, d: Event)
    requires
      if ev.OrderedBatch? then d == OrderedBatch(FirstOccurrences(After(p, evs), ev.txs)) else d == ev
    ensures Carries(p, evs + [ev], |evs|, d)
  {
    hide FirstOccurrences, TO.BatchTxs, HasKey, Keys, Emit;
    var all := evs + [ev];
    assert all[..|evs| + 1] == all && all[..|evs|] == evs;
    if ev.OrderedBatch? {
      TO.CanonicalTxs(p, evs);
      TO.BatchTxsSnoc(evs, ev);
      TO.FirstOccurrencesConcat(p, After(p, evs), TO.BatchTxs(evs), ev.txs);
    }
  }

  /** The items still waiting are the last ones that came in. */
  ghost predicate Aligned(items: seq<Item>, all: seq<Item>) {
    |items| <= |all| && forall j | 0 <= j < |items| :: items[j].request == all[|all| - |items| + j].request
  }

  lemma FlushAligned(s: State, all: seq<Item>)
    requires Aligned(s.items, all)
    ensures Aligned(Flush(s).0.items, all)
  {
    hide Flush, Canonical, After, Visible, Fill;
    FlushIsCanonical(s, (r: nat) => []);
  }

  lemma EnqueuedAligned(s: State, all: seq<Item>, item: Item)
    requires Aligned(s.items, all)
    ensures Aligned(s.items + [item], all + [item])
  {}

  lemma StepAligned(s: State, i: Input, o: Order)
    requires Aligned(s.items, o.items) && s.requests == o.requests
    ensures Aligned(Step(s, i).0.items, OrderAfter(o, i).items)
  {
    hide Flush;
    match i
    case OnNewEpoch(nr, protocol) =>
      var item := Item(None, Some(NewEpoch(nr, protocol)));
      EnqueuedAligned(s, o.items, item);
      FlushAligned(s.(epochNr := nr, items := s.items + [item]), o.items + [item]);
    case OnDeliverCert(cert, empty) =>
      var item := if empty then Item(None, Some(OrderedBatch([]))) else Item(Some(s.requests), None);
      EnqueuedAligned(s, o.items, item);
      FlushAligned(s.(items := s.items + [item]), o.items + [item]);
    case OnSnapshotRequest(replyTo) =>
      var item := Item(None, Some(SnapshotRequest(replyTo)));
      EnqueuedAligned(s, o.items, item);
      FlushAligned(s.(items := s.items + [item]), o.items + [item]);
    case OnRestore(chkp) =>
    case OnOther(what) =>
      var item := Item(None, Some(Other(what)));
      EnqueuedAligned(s, o.items, item);
      FlushAligned(s.(items := s.items + [item]), o.items + [item]);
    case OnProvide(request, txs) =>
      FlushAligned(s.(items := Answer(s.items, request, txs)), o.items);
  }

  lemma {:induction false} PlayAligned(base: CP.Progress, epochNr: EpochNr, inputs: seq<Input>)
    ensures
      var h, o := Play(base, epochNr, inputs), OrderOf(base, inputs);
      Aligned(h.s.items, o.items) && h.s.requests == o.requests
    decreases |inputs|
  {
    hide Step, Aligned;
    if inputs == [] {
      assert Aligned([], []) by {
        NothingAligned();
      }
    } else {
      var init, i := inputs[..|inputs| - 1], inputs[|inputs| - 1];
      PlayAligned(base, epochNr, init);
      var h := Play(base, epochNr, init);
      StepAligned(h.s, i, OrderOf(base, init));
      StepRequests(h.s, i, OrderOf(base, init));
    }
  }

  lemma NothingAligned()
    ensures Aligned([], [])
  {}

  lemma StepRequests(s: State, i: Input, o: Order)
    requires s.requests == o.requests
    ensures Step(s, i).0.requests == OrderAfter(o, i).requests
  {
    hide Flush, Canonical, After, Visible, Fill;
    var content: Contents := (r: nat) => [];
    match i
    case OnNewEpoch(nr, protocol) =>
      FlushIsCanonical(s.(epochNr := nr, items := s.items + [Item(None, Some(NewEpoch(nr, protocol)))]), content);
    case OnDeliverCert(cert, empty) =>
      FlushIsCanonical(s.(items := s.items + [Item(None, Some(OrderedBatch([])))]), content);
    case OnSnapshotRequest(replyTo) =>
      FlushIsCanonical(s.(items := s.items + [Item(None, Some(SnapshotRequest(replyTo)))]), content);
    case OnRestore(chkp) =>
    case OnOther(what) => FlushIsCanonical(s.(items := s.items + [Item(None, Some(Other(what)))]), content);
    case OnProvide(request, txs) => FlushIsCanonical(s.(items := Answer(s.items, request, txs)), content);
  }

  /** In every run with consistent answers, what went on to the application since the last restore are the events that
      came in, in order, each as it came, except that certificates have become the new ones among their transactions.
      Nothing is held back: the first event that is still missing, if any, waits for the answer to its own request. */
  lemma OutputFollowsOrder(base: CP.Progress, epochNr: EpochNr, inputs: seq<Input>, content: Contents)
    requires Consistent(inputs, content)
    ensures
      var h, o := Play(base, epochNr, inputs), OrderOf(base, inputs);
      var evs, dests := Fill(o.items, content), Dests(h.out);
      && |dests| <= |evs| && (forall j | 0 <= j < |dests| :: Carries(o.base, evs, j, dests[j]))
      && (|dests| < |evs| ==> o.items[|dests|].request.Some? && o.items[|dests|].request.value !in h.answered)
  {
    hide Canonical, Visible, Play, OrderOf, Fill, After, Dests, Carries, GoodItem, Filled;
    PlayKeepsInv(base, epochNr, inputs, content);
    PlayAligned(base, epochNr, inputs);
    var h, o := Play(base, epochNr, inputs), OrderOf(base, inputs);
    FillLength(o.items, content);
    FillLength(h.s.items, content);
    var left := Canonical(h.s.progress, Fill(h.s.items, content));
    CanonicalCarries(o.base, Fill(o.items, content));
    CanonicalCarries(h.s.progress, Fill(h.s.items, content));
    DestsConcat(Visible(h.out), left);
    VisibleDests(h.out);
    var dests, all := Dests(h.out), Dests(Canonical(o.base, Fill(o.items, content)));
    forall j | 0 <= j < |dests| ensures Carries(o.base, Fill(o.items, content), j, dests[j]) {
      assert all[j] == dests[j];
    }
    if h.s.items != [] {
      FirstIsUnanswered(h.s.items[0], h.s.requests, h.answered, content);
    }
  }

  lemma FillLength(items: seq<Item>, content: Contents)
    ensures |Fill(items, content)| == |items|
  {}

  lemma FirstIsUnanswered(item: Item, requests: nat, answered: set<nat>, content: Contents)
    requires GoodItem(item, requests, answered, content) && item.ev.None?
    ensures item.request.Some? && item.request.value !in answered
  {}

  // ---------------------------------------------------------------- side events

  ghost predicate PairedAt(outs: seq<Out>, i: nat)
    requires i < |outs|
  {
    && (outs[i].ToMempool? ==> i + 1 < |outs| && outs[i + 1].ToDest? && outs[i + 1].ev.NewEpoch?)
    && (outs[i].ToCheckpoint? ==> i + 1 < |outs| && outs[i + 1].ToDest? && outs[i + 1].ev.SnapshotRequest?)
    && (outs[i].ToDest? && outs[i].ev.NewEpoch? ==> i > 0 && outs[i - 1].ToMempool?)
    && (outs[i].ToDest? && outs[i].ev.SnapshotRequest? ==> i > 0 && outs[i - 1].ToCheckpoint?)
  }

  /** The progress goes to the mempool right before every new epoch, and to the checkpoint module right before every
      snapshot request, and never otherwise. */
  ghost predicate Paired(outs: seq<Out>) {
    forall i | 0 <= i < |outs| :: PairedAt(outs, i)
  }

  lemma PairedConcat(a: seq<Out>, b: seq<Out>)
    requires Paired(a) && Paired(b)
    ensures Paired(a + b)
  {
    var all := a + b;
    forall i | 0 <= i < |all| ensures PairedAt(all, i) {
      if i < |a| {
        assert PairedAt(a, i);
      } else {
        assert PairedAt(b, i - |a|);
      }
    }
  }

  /** Side events and requests carry this epoch number, and there are no requests among the output of a flush. */
  ghost predicate InEpoch(outs: seq<Out>, epochNr: EpochNr) {
    forall o | o in outs && (Side(o) || o.RequestTxs?) :: o.epoch == epochNr
  }

  function RequestsIn(outs: seq<Out>): seq<(nat, nat)> {
    if outs == [] then []
    else
      var last := outs[|outs| - 1];
      RequestsIn(outs[..|outs| - 1]) + (if last.RequestTxs? then [(last.cert, last.request)] else [])
  }

  lemma {:induction false} RequestsConcat(a: seq<Out>, b: seq<Out>)
    ensures RequestsIn(a + b) == RequestsIn(a) + RequestsIn(b)
    decreases |b|
  {
    if b == [] {
      assert a + b == a;
    } else {
      RequestsConcat(a, b[..|b| - 1]);
      assert (a + b)[..|a + b| - 1] == a + b[..|b| - 1];
    }
  }

  lemma {:induction false} NoRequests(outs: seq<Out>)
    requires forall o | o in outs :: !o.RequestTxs?
    ensures RequestsIn(outs) == []
    decreases |outs|
  {
    if outs != [] {
      NoRequests(outs[..|outs| - 1]);
    }
  }

  lemma {:induction false} FlushOutput(s: State)
    ensures Paired(Flush(s).1) && InEpoch(Flush(s).1, s.epochNr) && forall o | o in Flush(s).1 :: !o.RequestTxs?
    decreases |s.items|
  {
    hide Filter, CP.CollectAll, CP.AllToPb;
    if s.items != [] && s.items[0].ev.Some? {
      var (p1, out) := Emit(s.progress, s.epochNr, s.items[0].ev.value);
      var s0 := s.(items := s.items[1..], progress := p1);
      FlushOutput(s0);
      assert Paired(out);
      PairedConcat(out, Flush(s0).1);
    }
  }

  /** The epoch number the batch fetcher was last told. */
  function EpochOf(epochNr: EpochNr, inputs: seq<Input>): EpochNr {
    if inputs == [] then epochNr
    else
      match inputs[|inputs| - 1]
      case OnNewEpoch(nr, _) => nr
      case OnRestore(chkp) => chkp.Epoch()
      case _ => EpochOf(epochNr, inputs[..|inputs| - 1])
  }

  /** The certificates that came in since the last restore and are not empty, with a number for each. */
  function RequestsDue(inputs: seq<Input>): seq<(nat, nat)> {
    if inputs == [] then []
    else
      var init := inputs[..|inputs| - 1];
      match inputs[|inputs| - 1]
      case OnRestore(_) => []
      case OnDeliverCert(cert, empty) =>
        if empty then RequestsDue(init) else RequestsDue(init) + [(cert, |TO.Requested(init)|)]
      case _ => RequestsDue(init)
  }

  ghost function RequestOf(s: State, i: Input): seq<(nat, nat)> {
    if i.OnDeliverCert? && !i.empty then [(i.cert, s.requests)] else []
  }

  ghost function NextEpoch(s: State, i: Input): EpochNr {
    match i
    case OnNewEpoch(nr, _) => nr
    case OnRestore(chkp) => chkp.Epoch()
    case _ => s.epochNr
  }

  lemma StepOutput(s: State, i: Input)
    requires !i.OnRestore?
    ensures
      var (s1, out) := Step(s, i);
      && Paired(out) && InEpoch(out, NextEpoch(s, i)) && s1.epochNr == NextEpoch(s, i)
      && RequestsIn(out) == RequestOf(s, i)
  {
    hide Flush, Paired, Canonical, After, Visible, Fill;
    var content: Contents := (r: nat) => [];
    var (s1, out) := Step(s, i);
    if i.OnDeliverCert? && !i.empty {
      OneRequest(out[0]);
    } else {
      var s0 := match i {
        case OnNewEpoch(nr, protocol) =>
          s.(epochNr := nr, items := s.items + [Item(None, Some(NewEpoch(nr, protocol)))])
        case OnDeliverCert(_, _) => s.(items := s.items + [Item(None, Some(OrderedBatch([])))])
        case OnSnapshotRequest(replyTo) => s.(items := s.items + [Item(None, Some(SnapshotRequest(replyTo)))])
        case OnOther(what) => s.(items := s.items + [Item(None, Some(Other(what)))])
        case OnProvide(request, txs) => s.(items := Answer(s.items, request, txs))
      };
      FlushOutput(s0);
      FlushIsCanonical(s0, content);
      NoRequests(out);
    }
  }

  lemma OneRequest(o: Out)
    requires o.RequestTxs?
    ensures Paired([o]) && RequestsIn([o]) == [(o.cert, o.request)]
  {
    assert [o][..0] == [];
  }

  /** In every run: side events are where they belong, and the transactions of every certificate that is not empty were
      requested, once and in order, with the number by which the answer is found. */
  lemma {:induction false} SideEventsAndRequests(base: CP.Progress, epochNr: EpochNr, inputs: seq<Input>)
    ensures
      var h := Play(base, epochNr, inputs);
      && Paired(h.out) && RequestsIn(h.out) == RequestsDue(inputs)
      && h.s.epochNr == EpochOf(epochNr, inputs) && h.s.requests == |TO.Requested(inputs)|
    decreases |inputs|
  {
    hide Step, Paired, RequestsIn;
    if inputs == [] {
      NothingOut();
    } else {
      var init, i := inputs[..|inputs| - 1], inputs[|inputs| - 1];
      SideEventsAndRequests(base, epochNr, init);
      var h := Play(base, epochNr, init);
      StepRequests(h.s, i, Order(base, [], h.s.requests));
      if i.OnRestore? {
        NothingOut();
        RestoredEpoch(h.s, i);
      } else {
        StepOutput(h.s, i);
        PairedConcat(h.out, Step(h.s, i).1);
        RequestsConcat(h.out, Step(h.s, i).1);
      }
    }
  }

  lemma NothingOut()
    ensures Paired([]) && RequestsIn([]) == []
  {}

  lemma RestoredEpoch(s: State, i: Input)
    requires i.OnRestore?
    ensures Step(s, i).0.epochNr == i.chkp.Epoch()
  {}

  /** The output of one more input. */
  ghost function NewOut(base: CP.Progress, epochNr: EpochNr, inputs: seq<Input>, i: Input): seq<Out> {
    Step(Play(base, epochNr, inputs).s, i).1
  }

  /** What leaves at some point names the epoch that the batch fetcher was last told by then. */
  lemma NamesCurrentEpoch(base: CP.Progress, epochNr: EpochNr, inputs: seq<Input>, i: Input)
    ensures InEpoch(NewOut(base, epochNr, inputs, i), EpochOf(epochNr, inputs + [i]))
  {
    hide Play, Flush, EnqueueAndFlush;
    assert (inputs + [i])[..|inputs|] == inputs;
    SideEventsAndRequests(base, epochNr, inputs);
    if !i.OnRestore? {
      StepOutput(Play(base, epochNr, inputs).s, i);
    }
  }

  // ---------------------------------------------------------------- restores

  /** Everything that was ever output. */
  function Emitted(base: CP.Progress, epochNr: EpochNr, inputs: seq<Input>): seq<Out> {
    if inputs == [] then []
    else
      var init := inputs[..|inputs| - 1];
      Emitted(base, epochNr, init) + Step(Play(base, epochNr, init).s, inputs[|inputs| - 1]).1
  }

  function Restores(outs: seq<Out>): seq<StableCheckpoint> {
    if outs == [] then []
    else
      var last := outs[|outs| - 1];
      Restores(outs[..|outs| - 1]) + (if last.Restore? then [last.chkp] else [])
  }

  function RestoresAsked(inputs: seq<Input>): seq<StableCheckpoint> {
    if inputs == [] then []
    else
      var last := inputs[|inputs| - 1];
      RestoresAsked(inputs[..|inputs| - 1]) + (if last.OnRestore? then [last.chkp] else [])
  }

  /** What comes after the last restore. */
  function SinceRestore(outs: seq<Out>): seq<Out> {
    if outs == [] then []
    else
      var last := outs[|outs| - 1];
      if last.Restore? then [] else SinceRestore(outs[..|outs| - 1]) + [last]
  }

  lemma {:induction false} RestoresConcat(a: seq<Out>, b: seq<Out>)
    requires forall o | o in b :: !o.Restore?
    ensures Restores(a + b) == Restores(a) && SinceRestore(a + b) == SinceRestore(a) + b
    decreases |b|
  {
    if b == [] {
      assert a + b == a;
    } else {
      var init := b[..|b| - 1];
      RestoresConcat(a, init);
      assert (a + b)[..|a + b| - 1] == a + init;
      assert b[|b| - 1] in b;
      assert SinceRestore(a) + init + [b[|b| - 1]] == SinceRestore(a) + b;
    }
  }

  lemma {:induction false} FlushRestoresNothing(s: State)
    ensures forall o | o in Flush(s).1 :: !o.Restore?
    decreases |s.items|
  {
    hide Filter, CP.CollectAll, CP.AllToPb;
    if s.items != [] && s.items[0].ev.Some? {
      var (p1, out) := Emit(s.progress, s.epochNr, s.items[0].ev.value);
      FlushRestoresNothing(s.(items := s.items[1..], progress := p1));
    }
  }

  lemma StepRestores(s: State, i: Input)
    ensures i.OnRestore? ==> Step(s, i).1 == [Restore(i.chkp)]
    ensures !i.OnRestore? ==> forall o | o in Step(s, i).1 :: !o.Restore?
  {
    hide Flush;
    match i
    case OnNewEpoch(nr, protocol) =>
      FlushRestoresNothing(s.(epochNr := nr, items := s.items + [Item(None, Some(NewEpoch(nr, protocol)))]));
    case OnDeliverCert(cert, empty) =>
      FlushRestoresNothing(s.(items := s.items + [Item(None, Some(OrderedBatch([])))]));
    case OnSnapshotRequest(replyTo) =>
      FlushRestoresNothing(s.(items := s.items + [Item(None, Some(SnapshotRequest(replyTo)))]));
    case OnRestore(chkp) =>
    case OnOther(what) => FlushRestoresNothing(s.(items := s.items + [Item(None, Some(Other(what)))]));
    case OnProvide(request, txs) => FlushRestoresNothing(s.(items := Answer(s.items, request, txs)));
  }

  /** In every run the application is told of every restore, in order, and what the other theorems say is about
      everything it has been told since the last one. */
  lemma {:induction false} RestoresArePassedOn(base: CP.Progress, epochNr: EpochNr, inputs: seq<Input>)
    ensures
      var all := Emitted(base, epochNr, inputs);
      Restores(all) == RestoresAsked(inputs) && SinceRestore(all) == Play(base, epochNr, inputs).out
    decreases |inputs|
  {
    if inputs != [] {
      hide Step;
      var init, i := inputs[..|inputs| - 1], inputs[|inputs| - 1];
      RestoresArePassedOn(base, epochNr, init);
      var h, before := Play(base, epochNr, init), Emitted(base, epochNr, init);
      StepRestores(h.s, i);
      if i.OnRestore? {
        assert (before + [Restore(i.chkp)])[..|before|] == before;
      } else {
        RestoresConcat(before, Step(h.s, i).1);
      }
    }
  }
}
