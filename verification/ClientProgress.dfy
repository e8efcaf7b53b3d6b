/** Which transactions of which client have been delivered (pkg/clientprogress). */
module ClientProgress {
  import opened Lists
  import opened Types
  import opened SortedKeys

  // ---------------------------------------------------------------- as values

  /** Everything below the watermark counts as delivered. */
  datatype Tracker = Tracker(lowWM: TxNo, delivered: set<TxNo>)

  type Progress = map<ClientId, Tracker>

  const EMPTY := Tracker(0, {})

  predicate Contains(t: Tracker, n: TxNo) {
    n < t.lowWM || n in t.delivered
  }

  predicate Has(p: Progress, client: ClientId, n: TxNo) {
    client in p && Contains(p[client], n)
  }

  function AddTo(t: Tracker, n: TxNo): Tracker {
    if n < t.lowWM then t else t.(delivered := t.delivered + {n})
  }

  function TrackerOf(p: Progress, client: ClientId): Tracker {
    if client in p then p[client] else EMPTY
  }

  function Add(p: Progress, client: ClientId, n: TxNo): Progress {
    p[client := AddTo(TrackerOf(p, client), n)]
  }

  function Collect(t: Tracker): Tracker
    decreases t.delivered
  {
    if t.lowWM in t.delivered then Collect(Tracker(t.lowWM + 1, t.delivered - {t.lowWM})) else t
  }

  function CollectAll(p: Progress): Progress {
    map client | client in p :: Collect(p[client])
  }

  function ToPb(t: Tracker): DeliveredPb {
    DeliveredPb(t.lowWM, Sorted(t.delivered))
  }

  function FromPb(pb: DeliveredPb): Tracker {
    Tracker(pb.lowWm, set n | n in pb.delivered)
  }

  function AllToPb(p: Progress): map<ClientId, DeliveredPb> {
    map client | client in p :: ToPb(p[client])
  }

  function AllFromPb(pb: map<ClientId, DeliveredPb>): Progress {
    map client | client in pb :: FromPb(pb[client])
  }

  // ---------------------------------------------------------------- the set they stand for

  /** Adding puts exactly one transaction into the set. */
  lemma AddMeans(p: Progress, client: ClientId, n: TxNo, c: ClientId, k: TxNo)
    ensures Has(Add(p, client, n), c, k) <==> Has(p, c, k) || (c == client && k == n)
  {}

  /** No delivered number is below the watermark, or waiting to be absorbed by it. */
  ghost predicate Tight(t: Tracker) {
    t.lowWM !in t.delivered && forall n | n in t.delivered :: n >= t.lowWM
  }

  lemma {:induction false} CollectMeans(t: Tracker)
    ensures forall n :: Contains(Collect(t), n) <==> Contains(t, n)
    ensures Collect(t).lowWM >= t.lowWM && Collect(t).lowWM !in Collect(t).delivered
    ensures (forall n | n in t.delivered :: n >= t.lowWM) ==> Tight(Collect(t))
    decreases t.delivered
  {
    if t.lowWM in t.delivered {
      var u := Tracker(t.lowWM + 1, t.delivered - {t.lowWM});
      CollectMeans(u);
      forall n ensures Contains(t, n) <==> Contains(u, n) {}
    }
  }

  /** Garbage collection leaves the represented set unchanged. */
  lemma CollectKeepsSet(p: Progress, c: ClientId, n: TxNo)
    ensures Has(CollectAll(p), c, n) <==> Has(p, c, n)
  {
    if c in p {
      CollectMeans(p[c]);
    }
  }

  /** Serialising and loading gives back the same progress, not just the same set. */
  lemma PbRoundTrip(p: Progress)
    ensures AllFromPb(AllToPb(p)) == p
  {
    forall c | c in p ensures FromPb(ToPb(p[c])) == p[c] {
      assert (set n | n in Sorted(p[c].delivered)) == p[c].delivered;
    }
  }

  /** Loading anything and serialising it again keeps the set, sorts it and drops repetitions. */
  lemma PbIsNormalised(pb: DeliveredPb)
    ensures
      var again := ToPb(FromPb(pb));
      again.lowWm == pb.lowWm && Ascending(again.delivered) && forall n :: n in again.delivered <==> n in pb.delivered
  {
    SortedAscends(FromPb(pb).delivered);
  }

  ghost predicate Normal(p: Progress) {
    forall c | c in p :: Tight(p[c]) && p[c] != EMPTY
  }

  /** After garbage collection equal sets have equal representations, so nodes that delivered the same
      transactions put identical progress into their snapshots. */
  lemma NormalIsCanonical(p: Progress, q: Progress)
    requires Normal(p) && Normal(q)
    requires forall c, n :: Has(p, c, n) <==> Has(q, c, n)
    ensures p == q
  {
    forall c ensures c in p <==> c in q {
      KnownClientHasSome(p, c);
      KnownClientHasSome(q, c);
    }
    forall c | c in p ensures p[c] == q[c] {
      forall n ensures Contains(p[c], n) <==> Contains(q[c], n) {
        assert Has(p, c, n) <==> Has(q, c, n);
      }
      TightIsCanonical(p[c], q[c]);
    }
  }

  lemma KnownClientHasSome(p: Progress, c: ClientId)
    requires Normal(p)
    ensures c in p ==> exists n :: Has(p, c, n)
  {
    if c in p {
      if p[c].lowWM > 0 {
        assert Has(p, c, 0);
      } else {
        var n :| n in p[c].delivered;
        assert Has(p, c, n);
      }
    }
  }

  lemma TightIsCanonical(t: Tracker, u: Tracker)
    requires Tight(t) && Tight(u) && forall n :: Contains(t, n) <==> Contains(u, n)
    ensures t == u
  {
    assert Contains(t, t.lowWM) <==> Contains(u, t.lowWM);
    assert Contains(t, u.lowWM) <==> Contains(u, u.lowWM);
    forall n ensures n in t.delivered <==> n in u.delivered {
      assert Contains(t, n) <==> Contains(u, n);
    }
  }

  ghost predicate Sound(p: Progress) {
    forall c | c in p :: p[c] != EMPTY && forall n | n in p[c].delivered :: n >= p[c].lowWM
  }

  /** Tracking from scratch keeps the conditions under which garbage collection normalises. */
  lemma TrackingKeepsSound(p: Progress, client: ClientId, n: TxNo)
    requires Sound(p)
    ensures Sound(Add(p, client, n)) && Sound(CollectAll(p)) && Normal(CollectAll(p))
  {
    forall c | c in p ensures Tight(Collect(p[c])) && Collect(p[c]) != EMPTY {
      CollectMeans(p[c]);
      var k: TxNo :| Contains(p[c], k) by {
        if p[c].lowWM > 0 {
          assert Contains(p[c], 0);
        } else {
          var d :| d in p[c].delivered;
          assert Contains(p[c], d);
        }
      }
      assert Contains(Collect(p[c]), k);
    }
  }
}
