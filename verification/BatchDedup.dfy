/** Every transaction leaves the batch fetcher at most once since the last restore. */
module BatchDedup {
  import opened Lists
  import opened Types
  import opened BatchFetcher
  import CP = ClientProgress

  type Key = (ClientId, TxNo)

  function KeyOf(tx: Tx): Key {
    (tx.client, tx.no)
  }

  predicate HasKey(p: CP.Progress, k: Key) {
    CP.Has(p, k.0, k.1)
  }

  function Keys(txs: seq<Tx>): seq<Key> {
    if txs == [] then [] else Keys(txs[..|txs| - 1]) + [KeyOf(txs[|txs| - 1])]
  }

  /** The transactions delivered to the application, in order. */
  function DeliveredTxs(outs: seq<Out>): seq<Tx> {
    if outs == [] then [] else DeliveredTxs(outs[..|outs| - 1]) + TxsIn(outs[|outs| - 1])
  }

  function TxsIn(o: Out): seq<Tx> {
    if o.ToDest? && o.ev.OrderedBatch? then o.ev.txs else []
  }

  lemma {:induction false} KeysConcat(a: seq<Tx>, b: seq<Tx>)
    ensures Keys(a + b) == Keys(a) + Keys(b)
    decreases |b|
  {
    if b == [] {
      assert a + b == a;
    } else {
      KeysConcat(a, b[..|b| - 1]);
      assert (a + b)[..|a + b| - 1] == a + b[..|b| - 1];
    }
  }

  lemma {:induction false} DeliveredConcat(a: seq<Out>, b: seq<Out>)
    ensures DeliveredTxs(a + b) == DeliveredTxs(a) + DeliveredTxs(b)
    decreases |b|
  {
    hide TxsIn;
    if b == [] {
      assert a + b == a;
    } else {
      var init, last := b[..|b| - 1], b[|b| - 1];
      DeliveredConcat(a, init);
      assert (a + b)[..|a + b| - 1] == a + init && (a + b)[|a + b| - 1] == last;
      assert DeliveredTxs(a) + DeliveredTxs(init) + TxsIn(last) == DeliveredTxs(a) + (DeliveredTxs(init) + TxsIn(last));
    }
  }

  lemma {:induction false} NoBatches(outs: seq<Out>)
    requires forall o | o in outs :: !(o.ToDest? && o.ev.OrderedBatch?)
    ensures DeliveredTxs(outs) == []
    decreases |outs|
  {
    if outs != [] {
      NoBatches(outs[..|outs| - 1]);
    }
  }

  lemma DeliveredOne(txs: seq<Tx>)
    ensures DeliveredTxs([ToDest(OrderedBatch(txs))]) == txs
  {
    assert [ToDest(OrderedBatch(txs))][..0] == [];
  }

  lemma DistinctSnoc(keys: seq<Key>, k: Key)
    requires Distinct(keys) && k !in keys
    ensures Distinct(keys + [k])
  {}

  /** The filter keeps a transaction exactly if it was not delivered before and no earlier one in the
      batch has the same client and number. */
  function FirstOccurrences(p: CP.Progress, txs: seq<Tx>): seq<Tx> {
    if txs == [] then []
    else
      var init, last := txs[..|txs| - 1], txs[|txs| - 1];
      FirstOccurrences(p, init) + (if HasKey(p, KeyOf(last)) || KeyOf(last) in Keys(init) then [] else [last])
  }

  lemma {:induction false} FilterMeans(p: CP.Progress, txs: seq<Tx>)
    ensures Filter(p, txs).1 == FirstOccurrences(p, txs)
    ensures forall k: Key :: HasKey(Filter(p, txs).0, k) <==> HasKey(p, k) || k in Keys(txs)
    decreases |txs|
  {
    if txs != [] {
      var init, last := txs[..|txs| - 1], txs[|txs| - 1];
      FilterMeans(p, init);
      var p1 := Filter(p, init).0;
      forall k: Key ensures HasKey(Filter(p, txs).0, k) <==> HasKey(p, k) || k in Keys(txs) {
        CP.AddMeans(p1, last.client, last.no, k.0, k.1);
        assert HasKey(p1, k) <==> HasKey(p, k) || k in Keys(init);
      }
      assert HasKey(p1, KeyOf(last)) <==> HasKey(p, KeyOf(last)) || KeyOf(last) in Keys(init);
    }
  }

  lemma {:induction false} FirstOccurrencesDistinct(p: CP.Progress, txs: seq<Tx>)
    ensures Distinct(Keys(FirstOccurrences(p, txs)))
    ensures forall k: Key :: k in Keys(FirstOccurrences(p, txs)) <==> k in Keys(txs) && !HasKey(p, k)
    decreases |txs|
  {
    if txs != [] {
      var init, last := txs[..|txs| - 1], txs[|txs| - 1];
      FirstOccurrencesDistinct(p, init);
      if !HasKey(p, KeyOf(last)) && KeyOf(last) !in Keys(init) {
        var kept := FirstOccurrences(p, init);
        assert (kept + [last])[..|kept|] == kept;
        assert Keys(kept + [last]) == Keys(kept) + [KeyOf(last)];
        DistinctSnoc(Keys(kept), KeyOf(last));
      } else {
        assert FirstOccurrences(p, txs) == FirstOccurrences(p, init);
      }
    }
  }

  /** The current progress is the restored one plus what was delivered since, each once. */
  ghost predicate Once(base: CP.Progress, p: CP.Progress, outs: seq<Out>) {
    var keys := Keys(DeliveredTxs(outs));
    && Distinct(keys)
    && (forall k | k in keys :: !HasKey(base, k))
    && (forall k: Key :: HasKey(p, k) <==> HasKey(base, k) || k in keys)
  }

  lemma DistinctConcat(a: seq<Key>, b: seq<Key>)
    requires Distinct(a) && Distinct(b) && forall k | k in b :: k !in a
    ensures Distinct(a + b)
  {
    var c := a + b;
    forall i, j | 0 <= i < j < |c| ensures c[i] != c[j] {
      if i < |a| <= j {
        assert c[j] == b[j - |a|] && b[j - |a|] in b;
      }
    }
  }

  lemma BatchKeepsOnce(base: CP.Progress, p: CP.Progress, outs: seq<Out>, txs: seq<Tx>)
    requires Once(base, p, outs)
    ensures Once(base, Filter(p, txs).0, outs + [ToDest(OrderedBatch(Filter(p, txs).1))])
  {
    hide Filter, HasKey, Keys, DeliveredTxs, FirstOccurrences;
    var kept, all := Filter(p, txs).1, DeliveredTxs(outs);
    var last := ToDest(OrderedBatch(kept));
    FilterMeans(p, txs);
    FirstOccurrencesDistinct(p, txs);
    DeliveredConcat(outs, [last]);
    DeliveredOne(kept);
    KeysConcat(all, kept);
    DistinctConcat(Keys(all), Keys(kept));
  }

  lemma SilentKeepsOnce(base: CP.Progress, p: CP.Progress, q: CP.Progress, outs: seq<Out>, more: seq<Out>)
    requires Once(base, p, outs) && DeliveredTxs(more) == []
    requires forall k: Key :: HasKey(q, k) <==> HasKey(p, k)
    ensures Once(base, q, outs + more)
  {
    DeliveredConcat(outs, more);
    assert DeliveredTxs(outs) + [] == DeliveredTxs(outs);
  }

  lemma EmitKeepsOnce(base: CP.Progress, p: CP.Progress, outs: seq<Out>, epochNr: EpochNr, ev: Event)
    requires Once(base, p, outs)
    ensures Once(base, Emit(p, epochNr, ev).0, outs + Emit(p, epochNr, ev).1)
  {
    hide Once, Filter;
    if ev.OrderedBatch? {
      BatchKeepsOnce(base, p, outs, ev.txs);
    } else {
      var (q, more) := Emit(p, epochNr, ev);
      NoBatches(more);
      forall k: Key ensures HasKey(q, k) <==> HasKey(p, k) {
        CP.CollectKeepsSet(p, k.0, k.1);
      }
      SilentKeepsOnce(base, p, q, outs, more);
    }
  }

  lemma {:induction false} FlushKeepsOnce(base: CP.Progress, s: State, outs: seq<Out>)
    requires Once(base, s.progress, outs)
    ensures Once(base, Flush(s).0.progress, outs + Flush(s).1)
    decreases |s.items|
  {
    hide Once, Emit;
    if s.items == [] || s.items[0].ev.None? {
      assert outs + [] == outs;
    } else {
      var (p1, out) := Emit(s.progress, s.epochNr, s.items[0].ev.value);
      EmitKeepsOnce(base, s.progress, outs, s.epochNr, s.items[0].ev.value);
      var s0 := s.(items := s.items[1..], progress := p1);
      FlushKeepsOnce(base, s0, outs + out);
      assert outs + out + Flush(s0).1 == outs + (out + Flush(s0).1);
    }
  }

  lemma StepKeepsOnce(base: CP.Progress, s: State, i: Input, outs: seq<Out>)
    requires Once(base, s.progress, outs) && !i.OnRestore?
    ensures Once(base, Step(s, i).0.progress, outs + Step(s, i).1)
  {
    hide Once, Flush;
    match i
    case OnNewEpoch(nr, protocol) =>
      FlushKeepsOnce(base, s.(epochNr := nr, items := s.items + [Item(None, Some(NewEpoch(nr, protocol)))]), outs);
    case OnDeliverCert(cert, empty) =>
      if empty {
        FlushKeepsOnce(base, s.(items := s.items + [Item(None, Some(OrderedBatch([])))]), outs);
      } else {
        var request := RequestTxs(s.epochNr, cert, s.requests);
        assert [request][..0] == [];
        SilentKeepsOnce(base, s.progress, s.progress, outs, [request]);
      }
    case OnSnapshotRequest(replyTo) =>
      FlushKeepsOnce(base, s.(items := s.items + [Item(None, Some(SnapshotRequest(replyTo)))]), outs);
    case OnOther(what) =>
      FlushKeepsOnce(base, s.(items := s.items + [Item(None, Some(Other(what)))]), outs);
    case OnProvide(request, txs) =>
      FlushKeepsOnce(base, s.(items := Answer(s.items, request, txs)), outs);
  }

  /** In every run, whatever the answers: since the last restore each (client, number) is delivered at
      most once, none that the restored progress already contains, and the progress kept is exactly the
      restored one plus what was delivered. */
  lemma {:induction false} AtMostOnce(base: CP.Progress, epochNr: EpochNr, inputs: seq<Input>)
    ensures
      var h := Play(base, epochNr, inputs);
      Once(OrderOf(base, inputs).base, h.s.progress, h.out)
    decreases |inputs|
  {
    hide Once, Step;
    if inputs == [] {
      NothingOnce(base);
    } else {
      var init, i := inputs[..|inputs| - 1], inputs[|inputs| - 1];
      AtMostOnce(base, epochNr, init);
      var h := Play(base, epochNr, init);
      if i.OnRestore? {
        RestoredOnce(h.s, i);
      } else {
        StepKeepsOnce(OrderOf(base, init).base, h.s, i, h.out);
      }
    }
  }

  lemma NothingOnce(base: CP.Progress)
    ensures Once(base, base, [])
  {}

  lemma RestoredOnce(s: State, i: Input)
    requires i.OnRestore?
    ensures Once(CP.AllFromPb(i.chkp.snapshot.epochData.clientProgress), Step(s, i).0.progress, [])
  {}
}
