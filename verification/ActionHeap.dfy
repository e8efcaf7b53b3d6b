/** The heap of scheduled actions as a sequence (pkg/testsim/action-queue.go under Go's container/heap). */
module ActionHeap {
  import opened Lists

  /** An action: which one, when, and the process it resumes. */
  datatype Entry = Entry(id: nat, deadline: int, process: nat)

  function Parent(j: nat): (p: nat)
    ensures j > 0 ==> p < j && (j == 2 * p + 1 || j == 2 * p + 2)
  {
    if j == 0 then 0 else (j - 1) / 2
  }

  predicate Less(q: seq<Entry>, i: nat, j: nat)
    requires i < |q| && j < |q|
  {
    q[i].deadline < q[j].deadline
  }

  function Up(q: seq<Entry>, j: nat): (r: seq<Entry>)
    requires j < |q|
    ensures |r| == |q|
    decreases j
  {
    if j == 0 || !Less(q, j, Parent(j)) then q else Up(Swapped(q, Parent(j), j), Parent(j))
  }

  /** The child to compare with, among the first n elements. */
  function Child(q: seq<Entry>, i: nat, n: nat): (j: nat)
    requires n <= |q| && 2 * i + 1 < n
    ensures j < n && Parent(j) == i && j > i
  {
    if 2 * i + 2 < n && Less(q, 2 * i + 2, 2 * i + 1) then 2 * i + 2 else 2 * i + 1
  }

  predicate Sinks(q: seq<Entry>, i: nat, n: nat)
    requires i < n <= |q|
  {
    2 * i + 1 < n && Less(q, Child(q, i, n), i)
  }

  function Down(q: seq<Entry>, i: nat, n: nat): (r: seq<Entry>)
    requires i < n <= |q|
    ensures |r| == |q|
    decreases n - i
  {
    if !Sinks(q, i, n) then q else Down(Swapped(q, i, Child(q, i, n)), Child(q, i, n), n)
  }

  function Push(q: seq<Entry>, e: Entry): seq<Entry> {
    Up(q + [e], |q|)
  }

  function PopRest(q: seq<Entry>): seq<Entry>
    requires q != []
  {
    var n := |q| - 1;
    var q1 := Swapped(q, 0, n);
    if n == 0 then [] else Down(q1, 0, n)[..n]
  }

  function Remove(q: seq<Entry>, i: nat): seq<Entry>
    requires i < |q|
  {
    var n := |q| - 1;
    if i == n then q[..n]
    else
      var q1 := Swapped(q, i, n);
      (if Sinks(q1, i, n) then Down(q1, i, n) else Up(q1, i))[..n]
  }

  // ---------------------------------------------------------------- heap order

  ghost predicate Edge(q: seq<Entry>, k: nat)
    requires 0 < k < |q|
  {
    q[Parent(k)].deadline <= q[k].deadline
  }

  ghost predicate Heap(q: seq<Entry>, n: nat)
    requires n <= |q|
  {
    forall k | 0 < k < n :: Edge(q, k)
  }

  /** Everything in order among the first n, except perhaps j and its parent; j's children are in order
      with j's parent. */
  ghost predicate HeapButUp(q: seq<Entry>, j: nat, n: nat)
    requires j < n <= |q|
  {
    && (forall k | 0 < k < n && k != j :: Edge(q, k))
    && (j > 0 ==> forall k | 0 < k < n && Parent(k) == j :: q[Parent(j)].deadline <= q[k].deadline)
  }

  lemma RiseOne(q: seq<Entry>, j: nat, n: nat)
    requires 0 < j < n <= |q| && HeapButUp(q, j, n) && Less(q, j, Parent(j))
    ensures HeapButUp(Swapped(q, Parent(j), j), Parent(j), n)
  {
    var p := Parent(j);
    var q1 := Swapped(q, p, j);
    forall k | 0 < k < n && k != p ensures Edge(q1, k) {
      if k != j {
        assert Edge(q, k);
      }
    }
    if p > 0 {
      forall k | 0 < k < n && Parent(k) == p ensures q1[Parent(p)].deadline <= q1[k].deadline {
        assert Edge(q, p) && (k != j ==> Edge(q, k));
      }
    }
  }

  lemma {:induction false} UpRestores(q: seq<Entry>, j: nat, n: nat)
    requires j < n <= |q| && HeapButUp(q, j, n)
    ensures Heap(Up(q, j), n) && Up(q, j)[n..] == q[n..] && multiset(Up(q, j)) == multiset(q)
    decreases j
  {
    if j == 0 || !Less(q, j, Parent(j)) {
      assert j > 0 ==> Edge(q, j);
    } else {
      RiseOne(q, j, n);
      hide HeapButUp, Heap;
      UpRestores(Swapped(q, Parent(j), j), Parent(j), n);
    }
  }

  /** Everything in order among the first n, except perhaps i and its children; those are in order with
      i's parent. */
  ghost predicate HeapButDown(q: seq<Entry>, i: nat, n: nat)
    requires i < n <= |q|
  {
    && (forall k | 0 < k < n && Parent(k) != i :: Edge(q, k))
    && (i > 0 ==> forall k | 0 < k < n && Parent(k) == i :: q[Parent(i)].deadline <= q[k].deadline)
  }

  lemma ChildIsLeast(q: seq<Entry>, i: nat, n: nat, k: nat)
    requires n <= |q| && 0 < k < n && Parent(k) == i && 2 * i + 1 < n
    ensures q[Child(q, i, n)].deadline <= q[k].deadline
  {}

  lemma {:induction false} DownRestores(q: seq<Entry>, i: nat, n: nat)
    requires i < n <= |q| && HeapButDown(q, i, n)
    ensures Heap(Down(q, i, n), n) && Down(q, i, n)[n..] == q[n..] && multiset(Down(q, i, n)) == multiset(q)
    decreases n - i
  {
    if !Sinks(q, i, n) {
      forall k | 0 < k < n ensures Edge(q, k) {
        if Parent(k) == i {
          ChildIsLeast(q, i, n, k);
        }
      }
    } else {
      var j := Child(q, i, n);
      var q1 := Swapped(q, i, j);
      SinkOne(q, i, n);
      DownRestores(q1, j, n);
    }
  }

  lemma SinkOne(q: seq<Entry>, i: nat, n: nat)
    requires i < n <= |q| && HeapButDown(q, i, n) && Sinks(q, i, n)
    ensures HeapButDown(Swapped(q, i, Child(q, i, n)), Child(q, i, n), n)
  {
    var j := Child(q, i, n);
    var q1 := Swapped(q, i, j);
    forall k | 0 < k < n && Parent(k) != j ensures Edge(q1, k) {
      if Parent(k) == i {
        ChildIsLeast(q, i, n, k);
      } else {
        assert Edge(q, k);
      }
    }
    forall k | 0 < k < n && Parent(k) == j ensures q1[Parent(j)].deadline <= q1[k].deadline {
      assert Edge(q, k);
    }
  }

  // ---------------------------------------------------------------- the operations

  lemma {:induction false} RootIsLeast(q: seq<Entry>, k: nat)
    requires k < |q| && Heap(q, |q|)
    ensures q[0].deadline <= q[k].deadline
    decreases k
  {
    if k > 0 {
      assert Edge(q, k);
      RootIsLeast(q, Parent(k));
    }
  }

  lemma PrefixHeap(q: seq<Entry>, n: nat)
    requires n <= |q| && Heap(q, n)
    ensures Heap(q[..n], n)
  {
    forall k | 0 < k < n ensures Edge(q[..n], k) {
      assert Edge(q, k);
    }
  }

  /** Pushing adds exactly one action and keeps the heap order. */
  lemma PushKeeps(q: seq<Entry>, e: Entry)
    requires Heap(q, |q|)
    ensures |Push(q, e)| == |q| + 1 && Heap(Push(q, e), |q| + 1)
    ensures multiset(Push(q, e)) == multiset(q) + multiset{e}
  {
    var q1 := q + [e];
    forall k | 0 < k < |q1| && k != |q| ensures Edge(q1, k) {
      assert Edge(q, k);
    }
    UpRestores(q1, |q|, |q1|);
  }

  lemma SplitLast(q: seq<Entry>, q1: seq<Entry>, n: nat)
    requires |q| == n + 1 && |q1| == n + 1 && multiset(q1) == multiset(q)
    ensures multiset(q) == multiset(q1[..n]) + multiset{q1[n]}
  {
    assert q1 == q1[..n] + [q1[n]];
  }

  /** Popping takes out an action with the least deadline, exactly one, and keeps the heap order. */
  lemma PopKeeps(q: seq<Entry>)
    requires q != [] && Heap(q, |q|)
    ensures Heap(PopRest(q), |PopRest(q)|)
    ensures multiset(q) == multiset(PopRest(q)) + multiset{q[0]}
    ensures forall e | e in q :: q[0].deadline <= e.deadline
  {
    var n := |q| - 1;
    forall e | e in q ensures q[0].deadline <= e.deadline {
      var k :| 0 <= k < |q| && q[k] == e;
      RootIsLeast(q, k);
    }
    if n == 0 {
      assert q == [q[0]];
    } else {
      var q1 := Swapped(q, 0, n);
      forall k | 0 < k < n && Parent(k) != 0 ensures Edge(q1, k) {
        assert Edge(q, k);
      }
      DownRestores(q1, 0, n);
      var r := Down(q1, 0, n);
      assert r[n] == r[n..][0] == q1[n..][0] == q[0];
      SplitLast(q, r, n);
      PrefixHeap(r, n);
    }
  }

  lemma SwapOutDown(q: seq<Entry>, i: nat)
    requires i < |q| - 1 && Heap(q, |q|) && Sinks(Swapped(q, i, |q| - 1), i, |q| - 1)
    ensures HeapButDown(Swapped(q, i, |q| - 1), i, |q| - 1)
  {
    var n := |q| - 1;
    var q1 := Swapped(q, i, n);
    var j := Child(q1, i, n);
    assert Edge(q, j);
    forall k | 0 < k < n && Parent(k) != i ensures Edge(q1, k) {
      assert Edge(q, k);
    }
    if i > 0 {
      assert Edge(q, i);
      forall k | 0 < k < n && Parent(k) == i ensures q1[Parent(i)].deadline <= q1[k].deadline {
        assert Edge(q, k);
      }
    }
  }

  lemma SwapOutUp(q: seq<Entry>, i: nat)
    requires i < |q| - 1 && Heap(q, |q|) && !Sinks(Swapped(q, i, |q| - 1), i, |q| - 1)
    ensures HeapButUp(Swapped(q, i, |q| - 1), i, |q| - 1)
  {
    var n := |q| - 1;
    var q1 := Swapped(q, i, n);
    forall k | 0 < k < n && k != i ensures Edge(q1, k) {
      assert Edge(q, k);
      if Parent(k) == i {
        ChildIsLeast(q1, i, n, k);
      }
    }
    if i > 0 {
      assert Edge(q, i);
      forall k | 0 < k < n && Parent(k) == i ensures q1[Parent(i)].deadline <= q1[k].deadline {
        assert Edge(q, k);
      }
    }
  }

  /** Removing at a position takes out exactly the action there and keeps the heap order. */
  lemma RemoveKeeps(q: seq<Entry>, i: nat)
    requires i < |q| && Heap(q, |q|)
    ensures Heap(Remove(q, i), |Remove(q, i)|)
    ensures multiset(q) == multiset(Remove(q, i)) + multiset{q[i]}
  {
    var n := |q| - 1;
    if i == n {
      SplitLast(q, q, n);
      PrefixHeap(q, n);
    } else {
      var q1 := Swapped(q, i, n);
      var r := if Sinks(q1, i, n) then Down(q1, i, n) else Up(q1, i);
      if Sinks(q1, i, n) {
        SwapOutDown(q, i);
        DownRestores(q1, i, n);
      } else {
        SwapOutUp(q, i);
        UpRestores(q1, i, n);
      }
      assert r[n] == r[n..][0] == q1[n..][0] == q[i];
      SplitLast(q, r, n);
      PrefixHeap(r, n);
    }
  }
}
