/** Keys of a map in ascending order (pkg/util/maputil/maputil.go GetSortedKeys). */
module SortedKeys {
  import opened Lists

  predicate IsMin(s: set<nat>, x: nat) {
    x in s && forall y | y in s :: x <= y
  }

  lemma {:induction false} HasMin(s: set<nat>)
    requires s != {}
    ensures exists x :: IsMin(s, x)
    decreases s
  {
    var x :| x in s;
    if s == {x} {
      assert IsMin(s, x);
    } else {
      HasMin(s - {x});
      var z :| IsMin(s - {x}, z);
      assert forall y | y in s :: y == x || y in s - {x};
      assert IsMin(s, if x < z then x else z);
    }
  }

  function MinOf(s: set<nat>): (x: nat)
    requires s != {}
    ensures IsMin(s, x)
  {
    HasMin(s);
    var x :| IsMin(s, x);
    x
  }

  /** The keys in ascending order. */
  function Sorted(s: set<nat>): (r: seq<nat>)
    ensures |r| == |s| && forall x :: x in r <==> x in s
  {
    if s == {} then []
    else
      var x := MinOf(s);
      assert s == {x} + (s - {x});
      [x] + Sorted(s - {x})
  }

  lemma ConsAscends(x: nat, rest: seq<nat>)
    requires Ascending(rest) && forall y | y in rest :: x < y
    ensures Ascending([x] + rest)
  {
    var r := [x] + rest;
    forall i, j | 0 <= i < j < |r| ensures r[i] < r[j] {
      assert r[j] == rest[j - 1] && rest[j - 1] in rest;
      assert i > 0 ==> r[i] == rest[i - 1];
    }
  }

  lemma {:induction false} SortedAscends(s: set<nat>)
    ensures Ascending(Sorted(s)) && Elements(Sorted(s)) == s
    decreases s
  {
    if s != {} {
      var x := MinOf(s);
      SortedAscends(s - {x});
      forall y | y in Sorted(s - {x}) ensures x < y {
        assert y in s - {x};
      }
      ConsAscends(x, Sorted(s - {x}));
    }
  }
}
