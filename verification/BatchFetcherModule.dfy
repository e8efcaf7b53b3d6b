/** The batch fetcher as it runs (pkg/batchfetcher/batchfetcher.go, outputqueue.go): a queue of item objects
    whose events arrive later, flushed from the front; proved against module BatchFetcher. */
module BatchFetcherModule {
  import opened Lists
  import opened Types
  import opened BatchFetcher
  import opened ClientTrackers
  import CP = ClientProgress

  class OutputItem {
    const request: Option<nat>
    var ev: Option<Event>

    constructor (request: Option<nat>, ev: Option<Event>)
      ensures this.request == request && this.ev == ev
    {
      this.request, this.ev := request, ev;
    }
  }

  ghost function Values(items: seq<OutputItem>): seq<Item>
    reads items
  {
    seq(|items|, i requires 0 <= i < |items| reads items => Item(items[i].request, items[i].ev))
  }

  /** Only keeps transactions that have not been delivered yet. */
  method FilterDuplicates(progress: Clients, txs: seq<Tx>) returns (kept: seq<Tx>)
    requires progress.Valid()
    modifies progress, progress.trackers.Values
    ensures progress.Valid() && fresh(progress.trackers.Values - old(progress.trackers.Values))
    ensures (progress.Value(), kept) == Filter(old(progress.Value()), txs)
  {
    hide CP.Add, CP.Has;
    kept := [];
    for i := 0 to |txs|
      invariant progress.Valid() && fresh(progress.trackers.Values - old(progress.trackers.Values))
      invariant (progress.Value(), kept) == Filter(old(progress.Value()), txs[..i])
    {
      assert txs[..i + 1][..i] == txs[..i];
      var new_ := progress.Add(txs[i].client, txs[i].no);
      if new_ {
        kept := kept + [txs[i]];
      }
    }
    assert txs[..|txs|] == txs;
  }

  class Module {
    var items: seq<OutputItem>
    var epochNr: EpochNr
    var progress: Clients
    var requests: nat
    var out: seq<Out>
    ghost var issued: set<OutputItem>

    /** The queued items are different objects, and a request number identifies the item that was made for it, also
        after that item has left the queue. */
    ghost predicate Valid()
      reads this, items, progress
    {
      && progress.Valid() && Distinct(items)
      && (forall i | 0 <= i < |items| && items[i].request.Some? :: items[i] in issued)
      && (forall a | a in issued :: a.request.Some? && a.request.value < requests)
      && (forall a, b | a in issued && b in issued && a.request == b.request :: a == b)
    }

    ghost function St(): State
      reads this, items, progress, progress.trackers.Values
    {
      State(Values(items), epochNr, progress.Value(), requests)
    }

    ghost predicate Did(r: (State, seq<Out>), out0: seq<Out>)
      reads this, items, progress, progress.trackers.Values
    {
      St() == r.0 && out == out0 + r.1
    }

    constructor (epochNr: EpochNr, progress: Clients)
      requires progress.Valid()
      ensures Valid() && items == [] && requests == 0 && out == []
      ensures this.epochNr == epochNr && this.progress == progress
    {
      this.items, this.epochNr, this.progress, this.requests, this.out := [], epochNr, progress, 0, [];
      this.issued := {};
    }

    method CollectedProgress() returns (pb: map<ClientId, DeliveredPb>)
      requires Valid()
      modifies progress.trackers.Values
      ensures Valid() && progress.Value() == CP.CollectAll(old(progress.Value())) && pb == CP.AllToPb(progress.Value())
    {
      var _ := progress.GarbageCollect();
      pb := progress.Pb();
    }

    /** The output hook and the emission of one event. */
    method EmitEvent(ev: Event)
      requires Valid()
      modifies this`out, progress, progress.trackers.Values
      ensures Valid() && fresh(progress.trackers.Values - old(progress.trackers.Values))
      ensures progress.Value() == Emit(old(progress.Value()), epochNr, ev).0
      ensures out == old(out) + Emit(old(progress.Value()), epochNr, ev).1
    {
      hide Filter, CP.CollectAll, CP.AllToPb;
      match ev
      case OrderedBatch(txs) =>
        var kept := FilterDuplicates(progress, txs);
        out := out + [ToDest(OrderedBatch(kept))];
      case NewEpoch(_, _) =>
        var pb := CollectedProgress();
        out := out + [ToMempool(epochNr, pb), ToDest(ev)];
      case SnapshotRequest(_) =>
        var pb := CollectedProgress();
        out := out + [ToCheckpoint(epochNr, pb), ToDest(ev)];
      case Other(_) =>
        out := out + [ToDest(ev)];
    }

    method FlushOne()
      requires Valid() && items != [] && items[0].ev.Some?
      modifies this`out, this`items, progress, progress.trackers.Values
      ensures Valid() && fresh(progress.trackers.Values - old(progress.trackers.Values))
      ensures Did(First(old(St())), old(out)) && |items| < old(|items|)
    {
      hide Emit;
      EmitEvent(items[0].ev.value);
      items := items[1..];
      assert Values(items) == old(Values(items))[1..];
    }

    method RunFlush()
      requires Valid()
      modifies this`out, this`items, progress, progress.trackers.Values
      ensures Valid() && fresh(progress.trackers.Values - old(progress.trackers.Values))
      ensures Did(Flush(old(St())), old(out))
    {
      hide Flush, First, Flushing;
      StartFlushing(St(), out);
      while items != [] && items[0].ev.Some?
        invariant Valid() && fresh(progress.trackers.Values - old(progress.trackers.Values))
        invariant Flushing(old(St()), St(), old(out), out)
        decreases |items|
      {
        KeepFlushing(old(St()), St(), old(out), out);
        FlushOne();
      }
      DoneFlushing(old(St()), St(), old(out), out);
    }

    method EnqueueEvent(ev: Event)
      requires Valid()
      modifies this`out, this`items, progress, progress.trackers.Values
      ensures Valid() && fresh(progress.trackers.Values - old(progress.trackers.Values))
      ensures Did(EnqueueAndFlush(old(St()), ev), old(out))
    {
      hide Flush;
      var item := new OutputItem(None, Some(ev));
      items := items + [item];
      assert Values(items) == old(Values(items)) + [Item(None, Some(ev))];
      RunFlush();
    }

    method UponNewEpoch(nr: EpochNr, protocol: string)
      requires Valid()
      modifies this, progress, progress.trackers.Values
      ensures Valid() && fresh(progress.trackers.Values - old(progress.trackers.Values))
      ensures Did(Step(old(St()), OnNewEpoch(nr, protocol)), old(out)) && issued == old(issued)
    {
      hide EnqueueAndFlush;
      epochNr := nr;
      EnqueueEvent(NewEpoch(nr, protocol));
    }

    /** Reserves the place in the output for the transactions that are being requested. */
    method RequestTransactions(cert: nat) returns (item: OutputItem)
      requires Valid()
      modifies this`items, this`out, this`requests, this`issued
      ensures Valid() && fresh(item) && issued == old(issued) + {item} && item.request == Some(old(requests))
      ensures Did(Step(old(St()), OnDeliverCert(cert, false)), old(out))
    {
      hide Flush, EnqueueAndFlush;
      item := new OutputItem(Some(requests), None);
      items := items + [item];
      assert Values(items) == old(Values(items)) + [Item(Some(requests), None)];
      out := out + [RequestTxs(epochNr, cert, requests)];
      requests, issued := requests + 1, issued + {item};
    }

    /** A padding certificate has no transactions to fetch. */
    method UponDeliverCert(cert: nat, empty: bool)
      requires Valid()
      modifies this, progress, progress.trackers.Values
      ensures Valid() && fresh(progress.trackers.Values - old(progress.trackers.Values))
      ensures Did(Step(old(St()), OnDeliverCert(cert, empty)), old(out)) && issued >= old(issued)
    {
      hide EnqueueAndFlush;
      if empty {
        EnqueueEvent(OrderedBatch([]));
      } else {
        var _ := RequestTransactions(cert);
      }
    }

    method UponSnapshotRequest(replyTo: string)
      requires Valid()
      modifies this`out, this`items, progress, progress.trackers.Values
      ensures Valid() && fresh(progress.trackers.Values - old(progress.trackers.Values))
      ensures Did(Step(old(St()), OnSnapshotRequest(replyTo)), old(out))
    {
      hide EnqueueAndFlush;
      EnqueueEvent(SnapshotRequest(replyTo));
    }

    method UponOtherEvent(what: nat)
      requires Valid()
      modifies this`out, this`items, progress, progress.trackers.Values
      ensures Valid() && fresh(progress.trackers.Values - old(progress.trackers.Values))
      ensures Did(Step(old(St()), OnOther(what)), old(out))
    {
      hide EnqueueAndFlush;
      EnqueueEvent(Other(what));
    }

    method UponRestoreState(chkp: StableCheckpoint)
      requires Valid()
      modifies this
      ensures Valid() && fresh(progress) && fresh(progress.trackers.Values)
      ensures Did(Step(old(St()), OnRestore(chkp)), old(out)) && issued == old(issued)
    {
      epochNr := chkp.Epoch();
      progress := new Clients();
      progress.LoadPb(chkp.snapshot.epochData.clientProgress);
      items := [];
      out := out + [Restore(chkp)];
    }

    /** The answer comes with a reference to the item issued for the request, which may have left the queue in the
        meantime. */
    method UponProvideTransactions(txs: seq<Tx>, item: OutputItem)
      requires Valid() && item in issued
      modifies this`out, this`items, item`ev, progress, progress.trackers.Values
      ensures Valid() && fresh(progress.trackers.Values - old(progress.trackers.Values))
      ensures Did(Step(old(St()), OnProvide(item.request.value, txs)), old(out))
    {
      hide Flush;
      item.ev := Some(OrderedBatch(txs));
      assert Values(items) == Answer(old(Values(items)), item.request.value, txs);
      RunFlush();
    }
  }

  // ---------------------------------------------------------------- one round of the flush loop

  ghost function First(s: State): (State, seq<Out>)
    requires s.items != [] && s.items[0].ev.Some?
  {
    var (p1, out) := Emit(s.progress, s.epochNr, s.items[0].ev.value);
    (s.(items := s.items[1..], progress := p1), out)
  }

  ghost predicate Flushing(start: State, now: State, out0: seq<Out>, out: seq<Out>) {
    Flush(now).0 == Flush(start).0 && out + Flush(now).1 == out0 + Flush(start).1
  }

  lemma StartFlushing(s: State, out: seq<Out>)
    ensures Flushing(s, s, out, out)
  {}

  lemma KeepFlushing(start: State, s: State, out0: seq<Out>, out: seq<Out>)
    requires s.items != [] && s.items[0].ev.Some? && Flushing(start, s, out0, out)
    ensures Flushing(start, First(s).0, out0, out + First(s).1)
  {
    hide Emit;
    var (s1, more) := First(s);
    assert out + more + Flush(s1).1 == out + (more + Flush(s1).1);
  }

  lemma DoneFlushing(start: State, s: State, out0: seq<Out>, out: seq<Out>)
    requires (s.items == [] || s.items[0].ev.None?) && Flushing(start, s, out0, out)
    ensures s == Flush(start).0 && out == out0 + Flush(start).1
  {
    assert out + [] == out;
  }
}
