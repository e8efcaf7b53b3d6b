/** Which submodules exist, over all runs of the factory, and what that means for their events
    (stdmodules/factory/factory.go). */
module FactoryLifetimes {
  import opened Lists
  import opened Types
  import opened ModuleIds
  import opened MessageBuffer
  import opened Factory
  import opened FactoryTheorems
  import opened FactoryRetention

  // ---------------------------------------------------------------- the events of live submodules

  lemma UnbufferedLoseNothing(p: Params, s: State, id0: ModuleId, id: ModuleId)
    requires PendingOf(s, id0) != [] && id != id0 && BufferedNrs(s.buffer, id) == []
    ensures LostPart(p, s, id0, id) == []
  {
    hide BufferedNrs, Fit, Dropped;
    var room := p.capacity - s.pending[id0][0].size;
    DroppedIsTheRest(s.buffer, room);
    BufferedConcat(Dropped(s.buffer, room), Fit(s.buffer, room), id);
  }

  lemma LiveAreUnbuffered(p: Params, s: State, arrivals: seq<Event>, id: ModuleId)
    requires Inv(p, s, arrivals) && id in s.live
    ensures BufferedNrs(s.buffer, id) == []
  {
    hide Path, Accounted, AllMatch, Genuine, BufferedNrs;
    assert InOrder(s, arrivals, id);
  }

  lemma FirstLoses(p: Params, s: State, arrivals: seq<Event>, id0: ModuleId, n: nat)
    requires Inv(p, s, arrivals) && id0 !in s.live && PendingOf(s, id0) != []
    requires n in BufferFirst(p, s, id0).lost && n !in s.lost
    ensures n < |arrivals| && arrivals[n].dest !in s.live
  {
    hide InOrder, AllMatch, Genuine, Accounted, Replay, BufferFirst, LostPart, BufferedNrs;
    NewlyLost(p, s, arrivals, id0, n);
    var id := arrivals[n].dest;
    if id in s.live {
      LiveAreUnbuffered(p, s, arrivals, id);
      UnbufferedLoseNothing(p, s, id0, id);
    }
  }

  lemma {:induction false} EarlyLoses(p: Params, s: State, arrivals: seq<Event>, id0: ModuleId, n: nat)
    requires Inv(p, s, arrivals) && id0 !in s.live && n in BufferEarly(p, s, id0).lost && n !in s.lost
    ensures n < |arrivals| && arrivals[n].dest !in s.live
    decreases |PendingOf(s, id0)|
  {
    if PendingOf(s, id0) != [] {
      var s1 := BufferFirst(p, s, id0);
      FirstKeepsInv(p, s, arrivals, id0);
      PendingAfterFirst(p, s, id0);
      hide Inv, BufferFirst;
      if n in s1.lost {
        FirstLoses(p, s, arrivals, id0, n);
      } else {
        EarlyLoses(p, s1, arrivals, id0, n);
      }
    }
  }

  lemma {:induction false} AllLose(p: Params, s: State, arrivals: seq<Event>, order: seq<ModuleId>, n: nat)
    requires Inv(p, s, arrivals) && n in DistributeAll(p, s, order).lost && n !in s.lost
    ensures n < |arrivals| && arrivals[n].dest !in s.live
    decreases |order|
  {
    if order != [] {
      hide Inv, BufferEarly;
      var init, id := order[..|order| - 1], order[|order| - 1];
      var d := DistributeAll(p, s, init);
      DistributeAllKeepsInv(p, s, arrivals, init);
      if n in d.lost {
        AllLose(p, s, arrivals, init, n);
      } else {
        EarlyLoses(p, d, arrivals, id, n);
      }
    }
  }

  lemma {:induction false} CollectLosesNothing(s: State, r: nat)
    ensures GarbageCollect(s, r).lost == s.lost
    decreases r - s.retIdx
  {
    if r > s.retIdx {
      CollectLosesNothing(CollectOne(s), r);
    }
  }

  lemma CreateLosesNothing(s: State, id: ModuleId, r: nat)
    ensures Create(s, id, r).lost == s.lost
  {}

  /** No event is lost while its submodule exists. */
  lemma LostOnlyWhileAway(p: Params, moves: seq<Move>, h: History, m: Move, n: nat)
    requires PossibleRun(p, moves) && Play(p, moves) == Some(h) && Step(p, h.s, |h.arrivals|, m).Some?
    requires n in Step(p, h.s, |h.arrivals|, m).value.lost && n !in h.s.lost
    ensures n < |h.arrivals| && h.arrivals[n].dest !in h.s.live
  {
    RunKeepsInv(p, moves);
    hide Inv, PossibleRun, Play, DistributeAll, GarbageCollect, Create;
    match m
    case SubmoduleEvent(_, _, _) =>
    case New(order, id, r, _) =>
      CreateLosesNothing(DistributeAll(p, h.s, order), id, r);
      AllLose(p, h.s, h.arrivals, order, n);
    case Collect(order, r) =>
      CollectLosesNothing(DistributeAll(p, h.s, order), r);
      AllLose(p, h.s, h.arrivals, order, n);
    case Distributed(order) => AllLose(p, h.s, h.arrivals, order, n);
  }

  /** Whenever events have been distributed, every live submodule has been handed everything that arrived for it and was
      not lost before it was created. */
  lemma LiveHaveEverything(p: Params, moves: seq<Move>, h: History, m: Move, id: ModuleId, n: nat)
    requires PossibleRun(p, moves) && Play(p, moves) == Some(h) && Possible(h.s, m) && !m.SubmoduleEvent?
    requires Step(p, h.s, |h.arrivals|, m).Some? && id in Step(p, h.s, |h.arrivals|, m).value.live
    requires n < |h.arrivals| && h.arrivals[n].dest == id && n !in Step(p, h.s, |h.arrivals|, m).value.lost
    ensures n in HandedNrs(LogOf(Step(p, h.s, |h.arrivals|, m).value, id))
  {
    RunKeepsInv(p, moves);
    StepKeepsInv(p, h.s, h.arrivals, m);
    hide PossibleRun, Play, Step, HandedNrs, BufferedNrs;
    var s1 := Step(p, h.s, |h.arrivals|, m).value;
    assert Accounted(s1, h.arrivals, n) && InOrder(s1, h.arrivals, id);
  }

  /** Handling a move fails exactly for a submodule of somebody else, or with parameters that the generator rejects. */
  lemma FailsIff(p: Params, moves: seq<Move>, h: History, m: Move)
    requires Play(p, moves) == Some(h)
    ensures
      Step(p, h.s, |h.arrivals|, m).None? <==>
        m.New? && (Top(m.id) != p.ownId || (m.retIdx >= h.s.retIdx && !m.generated))
  {
    hide DistributeAll, GarbageCollect, Create, Top, Play;
    if m.New? {
      RetIdxUnchanged(p, h.s, m.order);
    }
  }

  // ---------------------------------------------------------------- who is live

  ghost predicate Creates(s: State, m: Move, id: ModuleId, q: nat) {
    m.New? && m.id == id && m.retIdx == q && q >= s.retIdx
  }

  lemma {:induction false} CollectLive(s: State, r: nat, id: ModuleId)
    ensures
      id in GarbageCollect(s, r).live <==>
        id in s.live && !(exists q | s.retIdx <= q < r :: id in RetainedAt(s, q))
    decreases r - s.retIdx
  {
    if r > s.retIdx {
      var s1 := CollectOne(s);
      CollectLive(s1, r, id);
      forall q | q > s.retIdx ensures RetainedAt(s1, q) == RetainedAt(s, q) {}
      if id in s.live && id in s1.live {
        forall q | s.retIdx <= q < r && id in RetainedAt(s, q) ensures id in RetainedAt(s1, q) {}
      }
    }
  }

  lemma {:induction false} CollectListed(s: State, r: nat, q: nat)
    requires q >= r && q >= s.retIdx
    ensures RetainedAt(GarbageCollect(s, r), q) == RetainedAt(s, q)
    decreases r - s.retIdx
  {
    if r > s.retIdx {
      CollectListed(CollectOne(s), r, q);
    }
  }

  ghost predicate Removes(s: State, m: Move, id: ModuleId) {
    m.Collect? && exists q | s.retIdx <= q < m.retIdx :: id in RetainedAt(s, q)
  }

  lemma StepLive(p: Params, s: State, nr: nat, m: Move, id: ModuleId)
    requires Step(p, s, nr, m).Some?
    ensures
      id in Step(p, s, nr, m).value.live <==>
        (exists q :: Creates(s, m, id, q)) || (id in s.live && !Removes(s, m, id))
  {
    hide DistributeAll, GarbageCollect, Kept, Applied, RetainedAt, Top;
    match m
    case SubmoduleEvent(_, _, _) =>
    case New(order, id', r, _) =>
      RetIdxUnchanged(p, s, order);
      assert id == id' && r >= s.retIdx ==> Creates(s, m, id, r);
    case Collect(order, r) =>
      RetIdxUnchanged(p, s, order);
      var d := DistributeAll(p, s, order);
      SameLists(s, d);
      CollectLive(d, r, id);
    case Distributed(order) => RetIdxUnchanged(p, s, order);
  }

  lemma SameLists(s: State, d: State)
    requires d.retention == s.retention
    ensures forall q :: RetainedAt(d, q) == RetainedAt(s, q)
  {}

  lemma StepListed(p: Params, s: State, nr: nat, m: Move, id: ModuleId, q: nat)
    requires Step(p, s, nr, m).Some? && Step(p, s, nr, m).value.retIdx <= q && s.retIdx <= q
    requires m.Collect? ==> m.retIdx <= q
    ensures id in RetainedAt(Step(p, s, nr, m).value, q) <==> Creates(s, m, id, q) || id in RetainedAt(s, q)
  {
    hide DistributeAll, GarbageCollect, Kept, Applied, Top;
    match m
    case SubmoduleEvent(_, _, _) =>
    case New(order, _, _, _) => RetIdxUnchanged(p, s, order);
    case Collect(order, r) =>
      RetIdxUnchanged(p, s, order);
      CollectListed(DistributeAll(p, s, order), r, q);
    case Distributed(order) => RetIdxUnchanged(p, s, order);
  }

  // ---------------------------------------------------------------- looking back over a run

  /** The state before move k. */
  ghost function StateAt(p: Params, moves: seq<Move>, k: nat): State
    requires k <= |moves|
  {
    if Play(p, moves[..k]).Some? then Play(p, moves[..k]).value.s else Factory.EMPTY
  }

  lemma LastState(p: Params, moves: seq<Move>)
    requires Play(p, moves).Some?
    ensures StateAt(p, moves, |moves|) == Play(p, moves).value.s
  {
    assert moves[..|moves|] == moves;
  }

  lemma SameBefore(p: Params, moves: seq<Move>, m: Move, k: nat)
    requires k <= |moves|
    ensures StateAt(p, moves + [m], k) == StateAt(p, moves, k)
  {
    assert (moves + [m])[..k] == moves[..k];
  }

  /** Move i created the submodule under retention index q. */
  ghost predicate CreatesAt(p: Params, moves: seq<Move>, i: nat, id: ModuleId, q: nat) {
    i < |moves| && Creates(StateAt(p, moves, i), moves[i], id, q)
  }

  /** The submodule was created under retention index q at some time. */
  ghost predicate CreatedUnder(p: Params, moves: seq<Move>, id: ModuleId, q: nat) {
    exists i :: CreatesAt(p, moves, i, id, q)
  }

  lemma CreatedUnderLast(p: Params, moves: seq<Move>, m: Move, id: ModuleId, q: nat)
    ensures
      CreatedUnder(p, moves + [m], id, q) <==>
        CreatedUnder(p, moves, id, q) || Creates(StateAt(p, moves, |moves|), m, id, q)
  {
    hide StateAt, Creates;
    var all := moves + [m];
    forall i: nat | i <= |moves| ensures StateAt(p, all, i) == StateAt(p, moves, i) {
      SameBefore(p, moves, m, i);
    }
    if CreatedUnder(p, moves, id, q) {
      var i: nat :| CreatesAt(p, moves, i, id, q);
      assert CreatesAt(p, all, i, id, q);
    }
    if Creates(StateAt(p, moves, |moves|), m, id, q) {
      assert CreatesAt(p, all, |moves|, id, q);
    }
    if CreatedUnder(p, all, id, q) {
      var i: nat :| CreatesAt(p, all, i, id, q);
      assert i < |moves| ==> CreatesAt(p, moves, i, id, q);
    }
  }

  /** What is listed under an index that was not collected yet is what was created under it. */
  lemma {:induction false} ListedIff(p: Params, moves: seq<Move>, id: ModuleId, q: nat)
    requires Play(p, moves).Some? && q >= Play(p, moves).value.s.retIdx
    ensures id in RetainedAt(Play(p, moves).value.s, q) <==> CreatedUnder(p, moves, id, q)
    decreases |moves|
  {
    hide Step, CreatedUnder, Creates;
    if moves == [] {
      NothingCreated(p, id, q);
    } else {
      var init, m := moves[..|moves| - 1], moves[|moves| - 1];
      var h := Play(p, init).value;
      LiveAreRetained(p, init);
      StepRetains(p, h.s, |h.arrivals|, m);
      ListedIff(p, init, id, q);
      StepListed(p, h.s, |h.arrivals|, m, id, q);
      LastState(p, init);
      CreatedUnderLast(p, init, m, id, q);
      assert moves == init + [m];
    }
  }

  lemma NothingCreated(p: Params, id: ModuleId, q: nat)
    ensures !CreatedUnder(p, [], id, q)
  {}

  /** Move k collected an index under which the submodule had been created. */
  ghost predicate RemovesAt(p: Params, moves: seq<Move>, k: nat, id: ModuleId)
    requires k < |moves|
  {
    && moves[k].Collect?
    && exists q | StateAt(p, moves, k).retIdx <= q < moves[k].retIdx :: CreatedUnder(p, moves[..k], id, q)
  }

  ghost predicate LiveSince(p: Params, moves: seq<Move>, i: nat, id: ModuleId) {
    && (exists q :: CreatesAt(p, moves, i, id, q))
    && i < |moves| && forall k | i < k < |moves| :: !RemovesAt(p, moves, k, id)
  }

  lemma RemovesMeans(p: Params, moves: seq<Move>, m: Move, id: ModuleId)
    requires Play(p, moves).Some?
    ensures Removes(Play(p, moves).value.s, m, id) <==> RemovesAt(p, moves + [m], |moves|, id)
  {
    hide Play, CreatedUnder, RetainedAt;
    var s, all := Play(p, moves).value.s, moves + [m];
    assert all[..|moves|] == moves;
    SameBefore(p, moves, m, |moves|);
    LastState(p, moves);
    forall q: nat | q >= s.retIdx ensures id in RetainedAt(s, q) <==> CreatedUnder(p, moves, id, q) {
      ListedIff(p, moves, id, q);
    }
  }

  lemma RemovesSame(p: Params, moves: seq<Move>, m: Move, k: nat, id: ModuleId)
    requires k < |moves|
    ensures RemovesAt(p, moves + [m], k, id) <==> RemovesAt(p, moves, k, id)
  {
    assert (moves + [m])[..k] == moves[..k];
    SameBefore(p, moves, m, k);
  }

  lemma LiveSinceLast(p: Params, moves: seq<Move>, m: Move, i: nat, id: ModuleId)
    requires Play(p, moves).Some?
    ensures i < |moves| ==>
      (LiveSince(p, moves + [m], i, id) <==>
         LiveSince(p, moves, i, id) && !RemovesAt(p, moves + [m], |moves|, id))
    ensures LiveSince(p, moves + [m], |moves|, id) <==> exists q :: Creates(Play(p, moves).value.s, m, id, q)
  {
    hide Play, StateAt, Creates, RemovesAt;
    var all := moves + [m];
    LastState(p, moves);
    forall k: nat | k <= |moves| ensures StateAt(p, all, k) == StateAt(p, moves, k) {
      SameBefore(p, moves, m, k);
    }
    forall k: nat | k < |moves| ensures RemovesAt(p, all, k, id) <==> RemovesAt(p, moves, k, id) {
      RemovesSame(p, moves, m, k, id);
    }
    if i < |moves| {
      assert forall q :: CreatesAt(p, all, i, id, q) <==> CreatesAt(p, moves, i, id, q);
    }
    assert forall q :: CreatesAt(p, all, |moves|, id, q) <==> Creates(Play(p, moves).value.s, m, id, q);
  }

  /** Over every run: a submodule exists exactly if it was created and no retention index under which it was ever
      created has been collected since. */
  lemma {:induction false} LiveIff(p: Params, moves: seq<Move>, id: ModuleId)
    requires Play(p, moves).Some?
    ensures id in Play(p, moves).value.s.live <==> exists i :: LiveSince(p, moves, i, id)
    decreases |moves|
  {
    hide Step, LiveSince, Removes, RemovesAt, Creates;
    if moves == [] {
      NothingLive(p, id);
    } else {
      var init, m := moves[..|moves| - 1], moves[|moves| - 1];
      assert moves == init + [m];
      var h := Play(p, init).value;
      LiveIff(p, init, id);
      StepLive(p, h.s, |h.arrivals|, m, id);
      RemovesMeans(p, init, m, id);
      forall i: nat | i <= |init|
        ensures LiveSince(p, moves, i, id) <==>
          if i == |init| then exists q :: Creates(h.s, m, id, q)
          else LiveSince(p, init, i, id) && !RemovesAt(p, moves, |init|, id)
      {
        LiveSinceLast(p, init, m, i, id);
      }
      LiveWhen(p, init, id);
      LiveWhen(p, moves, id);
      assert LiveSince(p, moves, |init|, id) <==> exists q :: Creates(h.s, m, id, q);
      if id in h.s.live && !Removes(h.s, m, id) {
        var i: nat :| LiveSince(p, init, i, id);
        assert LiveSince(p, moves, i, id);
      }
    }
  }

  lemma NothingLive(p: Params, id: ModuleId)
    ensures forall i :: !LiveSince(p, [], i, id)
  {}

  lemma LiveWhen(p: Params, moves: seq<Move>, id: ModuleId)
    ensures forall i: nat | LiveSince(p, moves, i, id) :: i < |moves|
  {}
}
