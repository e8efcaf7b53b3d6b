/** Client progress as the program keeps it: one mutable tracker object per client
    (pkg/clientprogress/deliveredtxs.go and clientprogress.go), proved against module ClientProgress. */
module ClientTrackers {
  import opened Types
  import opened SortedKeys
  import CP = ClientProgress

  class DeliveredTXs {
    var lowWM: TxNo
    var delivered: set<TxNo>

    ghost function Value(): CP.Tracker
      reads this
    {
      CP.Tracker(lowWM, delivered)
    }

    constructor Empty()
      ensures Value() == CP.EMPTY
    {
      lowWM, delivered := 0, {};
    }

    constructor FromPb(pb: DeliveredPb)
      ensures Value() == CP.FromPb(pb)
    {
      lowWM, delivered := pb.lowWm, {};
      new;
      for i := 0 to |pb.delivered|
        invariant lowWM == pb.lowWm && delivered == set n | n in pb.delivered[..i]
      {
        assert pb.delivered[..i + 1] == pb.delivered[..i] + [pb.delivered[i]];
        delivered := delivered + {pb.delivered[i]};
      }
      assert pb.delivered[..|pb.delivered|] == pb.delivered;
    }

    method Contains(n: TxNo) returns (found: bool)
      ensures found <==> CP.Contains(Value(), n)
    {
      if n < lowWM {
        return true;
      }
      found := n in delivered;
    }

    method Add(n: TxNo) returns (added: bool)
      modifies this`delivered
      ensures Value() == CP.AddTo(old(Value()), n)
      ensures added <==> !CP.Contains(old(Value()), n)
    {
      if n < lowWM {
        return false;
      }
      added := n !in delivered;
      delivered := delivered + {n};
    }

    method GarbageCollect() returns (low: TxNo)
      modifies this
      ensures Value() == CP.Collect(old(Value())) && low == lowWM
    {
      while lowWM in delivered
        invariant CP.Collect(Value()) == CP.Collect(old(Value()))
        decreases delivered
      {
        delivered := delivered - {lowWM};
        lowWM := lowWM + 1;
      }
      low := lowWM;
    }

    method Pb() returns (pb: DeliveredPb)
      ensures pb == CP.ToPb(Value())
    {
      pb := DeliveredPb(lowWM, Sorted(delivered));
    }
  }

  class Clients {
    var trackers: map<ClientId, DeliveredTXs>

    /** No two clients share a tracker. */
    ghost predicate Valid()
      reads this
    {
      forall c, d | c in trackers && d in trackers && c != d :: trackers[c] != trackers[d]
    }

    ghost function Value(): CP.Progress
      reads this, trackers.Values
    {
      map c | c in trackers :: trackers[c].Value()
    }

    constructor ()
      ensures Valid() && Value() == map[] && trackers == map[]
    {
      trackers := map[];
    }

    method Contains(c: ClientId, n: TxNo) returns (found: bool)
      ensures found <==> CP.Has(Value(), c, n)
    {
      if c !in trackers {
        return false;
      }
      found := trackers[c].Contains(n);
    }

    method Add(c: ClientId, n: TxNo) returns (added: bool)
      requires Valid()
      modifies this, trackers.Values
      ensures Valid() && Value() == CP.Add(old(Value()), c, n)
      ensures added <==> !CP.Has(old(Value()), c, n)
      ensures fresh(trackers.Values - old(trackers.Values))
    {
      if c !in trackers {
        var empty := new DeliveredTXs.Empty();
        trackers := trackers[c := empty];
      }
      added := trackers[c].Add(n);
    }

    method GarbageCollect() returns (lowWMs: map<ClientId, TxNo>)
      requires Valid()
      modifies trackers.Values
      ensures Valid() && Value() == CP.CollectAll(old(Value()))
      ensures lowWMs == map c | c in trackers :: CP.Collect(old(Value())[c]).lowWM
    {
      lowWMs := map[];
      var rest := trackers.Keys;
      while rest != {}
        invariant rest <= trackers.Keys && lowWMs.Keys == trackers.Keys - rest
        invariant forall c | c in rest :: trackers[c].Value() == old(trackers[c].Value())
        invariant forall c | c in lowWMs ::
                    trackers[c].Value() == CP.Collect(old(trackers[c].Value())) && lowWMs[c] == trackers[c].lowWM
      {
        var c :| c in rest;
        var low := trackers[c].GarbageCollect();
        lowWMs := lowWMs[c := low];
        rest := rest - {c};
      }
    }

    method Pb() returns (pb: map<ClientId, DeliveredPb>)
      ensures pb == CP.AllToPb(Value())
    {
      pb := map[];
      var rest := trackers.Keys;
      while rest != {}
        invariant rest <= trackers.Keys && pb.Keys == trackers.Keys - rest
        invariant forall c | c in pb :: pb[c] == CP.ToPb(trackers[c].Value())
      {
        var c :| c in rest;
        var one := trackers[c].Pb();
        pb := pb[c := one];
        rest := rest - {c};
      }
    }

    method LoadPb(pb: map<ClientId, DeliveredPb>)
      modifies this
      ensures Valid() && Value() == CP.AllFromPb(pb) && fresh(trackers.Values)
    {
      trackers := map[];
      var rest := pb.Keys;
      while rest != {}
        invariant rest <= pb.Keys && trackers.Keys == pb.Keys - rest
        invariant Valid() && forall c | c in trackers :: fresh(trackers[c])
        invariant forall c | c in trackers :: trackers[c].Value() == CP.FromPb(pb[c])
      {
        var c :| c in rest;
        var one := new DeliveredTXs.FromPb(pb[c]);
        trackers := trackers[c := one];
        rest := rest - {c};
      }
    }
  }
}
