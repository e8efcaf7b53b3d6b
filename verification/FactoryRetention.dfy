/** Lifetimes of submodules: which are live, and under which retention index they are listed. */
module FactoryRetention {
  import opened Lists
  import opened Types
  import opened ModuleIds
  import opened MessageBuffer
  import opened Factory
  import opened FactoryTheorems

  ghost predicate Listed(s: State, id: ModuleId) {
    exists r | r in s.retention :: id in s.retention[r]
  }

  /** Live submodules are listed, and nothing is listed below the current index. */
  ghost predicate Retained(s: State) {
    && (forall r | r in s.retention :: r >= s.retIdx)
    && (forall id | id in s.live :: Listed(s, id))
  }

  lemma CreateRetains(s: State, id: ModuleId, r: nat)
    requires Retained(s) && r >= s.retIdx
    ensures Retained(Create(s, id, r)) && Create(s, id, r).retIdx == s.retIdx
  {
    hide Kept, Applied;
    var s1 := Create(s, id, r);
    forall x | x in s1.live ensures Listed(s1, x) {
      if x == id {
        assert x in s1.retention[r];
      } else {
        var q :| q in s.retention && x in s.retention[q];
        assert x in s1.retention[q];
      }
    }
  }

  lemma {:induction false} CollectRetains(s: State, r: nat)
    requires Retained(s)
    ensures Retained(GarbageCollect(s, r)) && GarbageCollect(s, r).retIdx == if r > s.retIdx then r else s.retIdx
    decreases r - s.retIdx
  {
    if r > s.retIdx {
      var s1 := CollectOne(s);
      forall x | x in s1.live ensures Listed(s1, x) {
        var q :| q in s.retention && x in s.retention[q];
        assert q in s1.retention && s1.retention[q] == s.retention[q];
      }
      CollectRetains(s1, r);
    }
  }

  lemma StepRetains(p: Params, s: State, nr: nat, m: Move)
    requires Retained(s) && Step(p, s, nr, m).Some?
    ensures Retained(Step(p, s, nr, m).value)
    ensures Step(p, s, nr, m).value.retIdx == if m.Collect? && m.retIdx > s.retIdx then m.retIdx else s.retIdx
  {
    hide DistributeAll, Create, GarbageCollect;
    match m
    case SubmoduleEvent(dest, isMessage, size) =>
    case New(order, id, r, generated) =>
      RetIdxUnchanged(p, s, order);
      SameListsRetained(s, DistributeAll(p, s, order));
      if r >= s.retIdx && generated {
        CreateRetains(DistributeAll(p, s, order), id, r);
      }
    case Collect(order, r) =>
      RetIdxUnchanged(p, s, order);
      SameListsRetained(s, DistributeAll(p, s, order));
      CollectRetains(DistributeAll(p, s, order), r);
    case Distributed(order) =>
      RetIdxUnchanged(p, s, order);
      SameListsRetained(s, DistributeAll(p, s, order));
  }

  lemma SameListsRetained(s: State, s1: State)
    requires Retained(s) && s1.retIdx == s.retIdx && s1.retention == s.retention && s1.live == s.live
    ensures Retained(s1)
  {
    forall id | id in s1.live ensures Listed(s1, id) {
      assert Listed(s, id);
    }
  }

  /** In every run, every live submodule is listed under a retention index not below the current one. */
  lemma {:induction false} LiveAreRetained(p: Params, moves: seq<Move>)
    requires Play(p, moves).Some?
    ensures Retained(Play(p, moves).value.s)
    decreases |moves|
  {
    hide Step;
    if moves != [] {
      LiveAreRetained(p, moves[..|moves| - 1]);
      var h := Play(p, moves[..|moves| - 1]).value;
      StepRetains(p, h.s, |h.arrivals|, moves[|moves| - 1]);
    }
  }

  /** The current index never decreases. */
  lemma {:induction false} IndexNeverDecreases(p: Params, moves: seq<Move>, n: nat)
    requires n <= |moves| && Play(p, moves).Some?
    ensures Play(p, moves[..n]).Some? && Play(p, moves[..n]).value.s.retIdx <= Play(p, moves).value.s.retIdx
    decreases |moves|
  {
    hide Step;
    if n < |moves| {
      var init := moves[..|moves| - 1];
      assert init[..n] == moves[..n];
      IndexNeverDecreases(p, init, n);
      LiveAreRetained(p, init);
      var h := Play(p, init).value;
      StepRetains(p, h.s, |h.arrivals|, moves[|moves| - 1]);
    } else {
      assert moves[..n] == moves;
    }
  }

  // ---------------------------------------------------------------- without reuse of identifiers

  /** No identifier is listed twice. */
  ghost predicate ListedOnce(s: State) {
    && (forall r | r in s.retention :: Distinct(s.retention[r]))
    && (forall q, r, id | q in s.retention && r in s.retention && id in s.retention[q] && id in s.retention[r] ::
          q == r)
  }

  ghost predicate Exact(s: State, created: seq<ModuleId>) {
    && ListedOnce(s)
    && (forall id | Listed(s, id) :: id in s.live && id in created)
  }

  lemma CreateExact(s: State, created: seq<ModuleId>, id: ModuleId, r: nat)
    requires Exact(s, created) && id !in created
    ensures Exact(Create(s, id, r), created + [id])
  {
    hide Kept, Applied;
    var s1 := Create(s, id, r);
    assert !Listed(s, id);
    forall q, x | q in s1.retention && x in s1.retention[q]
      ensures (x == id && q == r) || (q in s.retention && x in s.retention[q] && x != id)
    {
      assert q in s.retention && x in s.retention[q] ==> Listed(s, x);
    }
    forall q | q in s1.retention ensures Distinct(s1.retention[q]) {
      assert q in s.retention ==> Distinct(s.retention[q]) && id !in s.retention[q];
    }
    forall x | Listed(s1, x) ensures x in s1.live && x in created + [id] {
      var q :| q in s1.retention && x in s1.retention[q];
      if x != id {
        assert Listed(s, x);
      }
    }
  }

  lemma {:induction false} CollectExact(s: State, created: seq<ModuleId>, r: nat)
    requires Exact(s, created)
    ensures Exact(GarbageCollect(s, r), created)
    decreases r - s.retIdx
  {
    if r > s.retIdx {
      var s1 := CollectOne(s);
      forall x | Listed(s1, x) ensures x in s1.live && x in created {
        var q :| q in s1.retention && x in s1.retention[q];
        assert Listed(s, x) && q in s.retention && x in s.retention[q];
        assert x !in RetainedAt(s, s.retIdx);
      }
      CollectExact(s1, created, r);
    }
  }

  lemma SameListsExact(s: State, s1: State, created: seq<ModuleId>)
    requires Exact(s, created) && s1.retention == s.retention && s1.live == s.live
    ensures Exact(s1, created)
  {
    forall id | Listed(s1, id) ensures Listed(s, id) {}
  }

  lemma StepExact(p: Params, s: State, created: seq<ModuleId>, nr: nat, m: Move)
    requires Exact(s, created) && Step(p, s, nr, m).Some?
    requires m.New? && m.retIdx >= s.retIdx ==> m.id !in created
    ensures Exact(Step(p, s, nr, m).value, if m.New? && m.retIdx >= s.retIdx then created + [m.id] else created)
  {
    hide DistributeAll, Create, GarbageCollect, Exact;
    match m
    case SubmoduleEvent(dest, isMessage, size) => SameListsExact(s, Step(p, s, nr, m).value, created);
    case New(order, id, r, generated) =>
      RetIdxUnchanged(p, s, order);
      SameListsExact(s, DistributeAll(p, s, order), created);
      if r >= s.retIdx {
        CreateExact(DistributeAll(p, s, order), created, id, r);
      }
    case Collect(order, r) =>
      RetIdxUnchanged(p, s, order);
      SameListsExact(s, DistributeAll(p, s, order), created);
      CollectExact(DistributeAll(p, s, order), created, r);
    case Distributed(order) =>
      RetIdxUnchanged(p, s, order);
      SameListsExact(s, DistributeAll(p, s, order), created);
  }

  lemma LastIsNew(ids: seq<ModuleId>, id: ModuleId)
    requires Distinct(ids + [id])
    ensures id !in ids
  {
    forall i | 0 <= i < |ids| ensures ids[i] != id {
      assert (ids + [id])[i] == ids[i] && (ids + [id])[|ids|] == id;
    }
  }

  /** If no identifier is used twice, the live submodules are exactly the listed ones. */
  lemma {:induction false} WithoutReuseLiveIsListed(p: Params, moves: seq<Move>)
    requires Play(p, moves).Some? && Distinct(Play(p, moves).value.created)
    ensures
      var h := Play(p, moves).value;
      Exact(h.s, h.created) && forall id :: id in h.s.live <==> Listed(h.s, id)
    decreases |moves|
  {
    LiveAreRetained(p, moves);
    if moves != [] {
      hide Step;
      var init, m := moves[..|moves| - 1], moves[|moves| - 1];
      var h := Play(p, init).value;
      var created := Play(p, moves).value.created;
      assert created == h.created || created == h.created + [m.id];
      assert forall i | 0 <= i < |h.created| :: h.created[i] == created[i];
      WithoutReuseLiveIsListed(p, init);
      if m.New? && m.retIdx >= h.s.retIdx {
        LastIsNew(h.created, m.id);
      }
      StepExact(p, h.s, h.created, |h.arrivals|, m);
    }
  }

  /** Exactly when collecting one index keeps the live submodules and the listed ones the same: none of
      the collected ones is also listed under a higher index. */
  lemma CollectKeepsExactlyUnless(s: State)
    requires forall id :: id in s.live <==> Listed(s, id)
    ensures
      var s1 := CollectOne(s);
      (forall id :: id in s1.live <==> Listed(s1, id)) <==>
        (forall id | id in RetainedAt(s, s.retIdx) :: !Listed(s1, id))
  {
    var s1 := CollectOne(s);
    forall id ensures Listed(s, id) <==> Listed(s1, id) || id in RetainedAt(s, s.retIdx) {
      if Listed(s, id) {
        var r :| r in s.retention && id in s.retention[r];
        assert r != s.retIdx ==> r in s1.retention && id in s1.retention[r];
      }
      if Listed(s1, id) {
        var r :| r in s1.retention && id in s1.retention[r];
        assert r in s.retention && id in s.retention[r];
      }
    }
  }

  /** Reusing an identifier under a higher index breaks this: collecting the lower index removes the
      submodule although it is still listed. */
  lemma ReuseRemovesListed(p: Params, id: ModuleId)
    requires Top(id) == p.ownId
    ensures
      var moves := [New([], id, 0, true), New([], id, 1, true), Collect([], 1)];
      var h := Play(p, moves);
      PossibleRun(p, moves) && h.Some? && Listed(h.value.s, id) && id !in h.value.s.live
  {
    var a, b, c := New([], id, 0, true), New([], id, 1, true), Collect([], 1);
    assert [a, b, c][..2] == [a, b] && [a, b][..1] == [a] && [a][..0] == [];
    var s1 := Create(Factory.EMPTY, id, 0);
    var s2 := Create(s1, id, 1);
    assert Play(p, []) == Some(History(Factory.EMPTY, [], []));
    assert Step(p, Factory.EMPTY, 0, a) == Some(s1);
    assert PossibleRun(p, []) && PossibleRun(p, [a]);
    assert Play(p, [a]).Some? && Play(p, [a]).value.s == s1 && Play(p, [a]).value.arrivals == [];
    assert Step(p, s1, 0, b) == Some(s2);
    assert PossibleRun(p, [a, b]);
    assert Play(p, [a, b]).Some? && Play(p, [a, b]).value.s == s2;
    assert GarbageCollect(s2, 1) == CollectOne(s2);
    assert s2.retention[1] == [id] && s2.retention[0] == [id];
  }
}
