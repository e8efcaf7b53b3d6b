/** The action queue as it runs: action objects that know their position (pkg/testsim/action-queue.go), moved
    around by Go's container/heap; proved against module ActionHeap. */
module ActionQueue {
  import opened Lists
  import opened ActionHeap

  class Action {
    const entry: Entry
    var index: int

    constructor (entry: Entry)
      ensures this.entry == entry && index == 0
    {
      this.entry, this.index := entry, 0;
    }
  }

  function Entries(q: seq<Action>): (r: seq<Entry>)
    ensures |r| == |q|
  {
    seq(|q|, i requires 0 <= i < |q| => q[i].entry)
  }

  class Queue {
    var q: seq<Action>

    /** Every action knows its position. */
    ghost predicate Valid()
      reads this, q
    {
      forall i | 0 <= i < |q| :: q[i].index == i
    }

    constructor ()
      ensures Valid() && q == []
    {
      q := [];
    }

    method Swap(i: nat, j: nat)
      requires Valid() && i < |q| && j < |q|
      modifies this, q[i], q[j]
      ensures Valid() && q == Swapped(old(q), i, j)
    {
      q := q[i := q[j]][j := q[i]];
      q[i].index := i;
      q[j].index := j;
    }

    method SiftUp(start: nat)
      requires Valid() && start < |q|
      modifies this, q
      ensures Valid() && Entries(q) == Up(old(Entries(q)), start) && SameActions(q, old(q), start + 1)
    {
      hide Up, Swapped, SameActions, Less, Entries;
      Same(q, start + 1);
      var j: nat := start;
      while true
        invariant Valid() && j <= start && SameActions(q, old(q), start + 1) && |q| == old(|q|)
        invariant forall a | a in q :: a in old(q)
        invariant Up(Entries(q), j) == Up(old(Entries(q)), start)
        decreases j
      {
        var i := if j == 0 then 0 else (j - 1) / 2;
        UpOne(q, j);
        if i == j || !(q[j].entry.deadline < q[i].entry.deadline) {
          break;
        }
        StillSame(q, old(q), i, j, start + 1);
        assert q[i] in old(q) && q[j] in old(q);
        Swap(i, j);
        j := i;
      }
    }

    method SiftDown(start: nat, n: nat) returns (moved: bool)
      requires Valid() && start < n <= |q|
      modifies this, q
      ensures Valid() && Entries(q) == Down(old(Entries(q)), start, n) && SameActions(q, old(q), n)
      ensures moved <==> Sinks(old(Entries(q)), start, n)
    {
      hide Down, Swapped, SameActions, Sinks, Child, Entries;
      Same(q, n);
      var i: nat := start;
      while true
        invariant Valid() && start <= i < n <= |q| && SameActions(q, old(q), n) && |q| == old(|q|)
        invariant forall a | a in q :: a in old(q)
        invariant Down(Entries(q), i, n) == Down(old(Entries(q)), start, n)
        invariant i == start ==> Entries(q) == old(Entries(q))
        invariant i > start ==> Sinks(old(Entries(q)), start, n)
        decreases n - i
      {
        DownOne(q, i, n);
        var j := 2 * i + 1;
        if j >= n {
          break;
        }
        if j + 1 < n && q[j + 1].entry.deadline < q[j].entry.deadline {
          j := j + 1;
        }
        if !(q[j].entry.deadline < q[i].entry.deadline) {
          break;
        }
        StillSame(q, old(q), i, j, n);
        assert q[i] in old(q) && q[j] in old(q);
        Swap(i, j);
        i := j;
      }
      moved := i > start;
    }

    method Push(e: Action)
      requires Valid() && e !in q
      modifies this, q, e
      ensures Valid() && Entries(q) == ActionHeap.Push(old(Entries(q)), e.entry)
      ensures multiset(q) == multiset(old(q)) + multiset{e}
    {
      hide Up;
      e.index := |q|;
      q := q + [e];
      assert Entries(q) == old(Entries(q)) + [e.entry];
      ghost var q1 := q;
      SiftUp(|q| - 1);
    }

    /** Takes the last action off the slice. */
    method DropLast() returns (e: Action)
      requires Valid() && q != []
      modifies this, q[|q| - 1]
      ensures Valid() && e == old(q[|q| - 1]) && q == old(q[..|q| - 1]) && e.index == -1 && e !in q
    {
      e := q[|q| - 1];
      assert e !in q[..|q| - 1];
      q := q[..|q| - 1];
      e.index := -1;
    }

    /** Takes out the action with the earliest deadline. */
    method Pop() returns (e: Action)
      requires Valid() && q != []
      modifies this, q
      ensures Valid() && e == old(q[0]) && e.index == -1
      ensures Entries(q) == PopRest(old(Entries(q))) && multiset(old(q)) == multiset(q) + multiset{e}
    {
      hide Down, Sinks;
      var n := |q| - 1;
      SwappedEntries(q, 0, n);
      Swap(0, n);
      ghost var q1 := q;
      if n > 0 {
        var _ := SiftDown(0, n);
        LastStays(q, q1, n);
      }
      LastApart(q);
      ghost var q2 := q;
      e := DropLast();
      assert Entries(q) == Entries(q2)[..n];
    }

    /** Takes out the action at a position. */
    method Remove(i: nat) returns (e: Action)
      requires Valid() && i < |q|
      modifies this, q
      ensures Valid() && e == old(q[i]) && e.index == -1
      ensures Entries(q) == ActionHeap.Remove(old(Entries(q)), i) && multiset(old(q)) == multiset(q) + multiset{e}
    {
      hide Down, Up, Sinks;
      var n := |q| - 1;
      if n != i {
        SwappedEntries(q, i, n);
        Swap(i, n);
        ghost var q1 := q;
        Settle(i, n);
        LastStays(q, q1, n);
      }
      LastApart(q);
      ghost var q2 := q;
      e := DropLast();
      assert Entries(q) == Entries(q2)[..n];
    }

    /** Moves the action that took the place of a removed one down, or else up. */
    method Settle(i: nat, n: nat)
      requires Valid() && i < n < |q|
      modifies this, q
      ensures Valid() && SameActions(q, old(q), n)
      ensures Entries(q) == if Sinks(old(Entries(q)), i, n) then Down(old(Entries(q)), i, n) else Up(old(Entries(q)), i)
    {
      hide Up, Sinks;
      var moved := SiftDown(i, n);
      if !moved {
        ghost var q1 := q;
        assert forall k | 0 <= k < |q| :: q[k] in old(q);
        SiftUp(i);
        FurtherSame(q, q1, old(q), i + 1, n);
      }
    }
  }

  // ---------------------------------------------------------------- single moves

  lemma SwappedEntries(q: seq<Action>, i: nat, j: nat)
    requires i < |q| && j < |q|
    ensures Entries(Swapped(q, i, j)) == Swapped(Entries(q), i, j)
  {}

  /** The same actions, and from position n on in the same places. */
  ghost predicate SameActions(q: seq<Action>, q0: seq<Action>, n: nat) {
    |q| == |q0| && n <= |q| && multiset(q) == multiset(q0) && q[n..] == q0[n..] && forall a | a in q :: a in q0
  }

  lemma Same(q: seq<Action>, n: nat)
    requires n <= |q|
    ensures SameActions(q, q, n)
  {}

  lemma StillSame(q: seq<Action>, q0: seq<Action>, i: nat, j: nat, n: nat)
    requires i < n && j < n <= |q| && SameActions(q, q0, n)
    ensures SameActions(Swapped(q, i, j), q0, n) && |Swapped(q, i, j)| == |q|
    ensures forall a | a in Swapped(q, i, j) :: a in q0
  {}

  lemma LastStays(q: seq<Action>, q0: seq<Action>, n: nat)
    requires SameActions(q, q0, n) && n < |q|
    ensures q[n] == q0[n]
  {
    assert q[n] == q[n..][0] == q0[n..][0];
  }

  lemma LastApart(q: seq<Action>)
    requires q != []
    ensures multiset(q) == multiset(q[..|q| - 1]) + multiset{q[|q| - 1]}
  {
    assert q == q[..|q| - 1] + [q[|q| - 1]];
  }

  lemma FurtherSame(q: seq<Action>, q1: seq<Action>, q0: seq<Action>, k: nat, n: nat)
    requires k <= n && SameActions(q, q1, k) && SameActions(q1, q0, n)
    ensures SameActions(q, q0, n)
  {
    assert q[n..] == q[k..][n - k..] && q1[n..] == q1[k..][n - k..];
  }

  lemma UpOne(q: seq<Action>, j: nat)
    requires j < |q|
    ensures
      var i := if j == 0 then 0 else (j - 1) / 2;
      && i < |q|
      && (if i == j || !(q[j].entry.deadline < q[i].entry.deadline) then Up(Entries(q), j) == Entries(q)
          else |Swapped(q, i, j)| == |q| && Up(Entries(Swapped(q, i, j)), i) == Up(Entries(q), j))
  {
    var i := if j == 0 then 0 else (j - 1) / 2;
    SwappedEntries(q, i, j);
  }

  lemma DownOne(q: seq<Action>, i: nat, n: nat)
    requires i < n <= |q|
    ensures
      var c := 2 * i + 1;
      if c >= n then Down(Entries(q), i, n) == Entries(q) && !Sinks(Entries(q), i, n)
      else
        var j := if c + 1 < n && q[c + 1].entry.deadline < q[c].entry.deadline then c + 1 else c;
        if !(q[j].entry.deadline < q[i].entry.deadline) then
          Down(Entries(q), i, n) == Entries(q) && !Sinks(Entries(q), i, n)
        else
          && |Swapped(q, i, j)| == |q| && Sinks(Entries(q), i, n)
          && Down(Entries(Swapped(q, i, j)), j, n) == Down(Entries(q), i, n)
  {
    if 2 * i + 1 < n {
      SwappedEntries(q, i, Child(Entries(q), i, n));
    }
  }
}
