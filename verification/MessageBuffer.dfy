/** The bounded backlog of early messages (pkg/messagebuffer/messagebuffer.go). */
module MessageBuffer {
  import opened ModuleIds

  /** A stored message; the number identifies it. */
  datatype Msg = Msg(nr: nat, dest: ModuleId, size: nat)

  datatype Applicable = Past | Current | Future | Invalid

  function Total(ms: seq<Msg>): nat {
    if ms == [] then 0 else ms[0].size + Total(ms[1..])
  }

  /** Removes messages from the front until the rest has at most the given size. */
  function Fit(ms: seq<Msg>, room: int): seq<Msg> {
    if Total(ms) <= room || ms == [] then ms else Fit(ms[1..], room)
  }

  /** The messages removed to make room. */
  function Dropped(ms: seq<Msg>, room: int): seq<Msg> {
    if Total(ms) <= room || ms == [] then [] else [ms[0]] + Dropped(ms[1..], room)
  }

  function StoreIn(capacity: int, ms: seq<Msg>, m: Msg): seq<Msg> {
    if m.size > capacity then ms else Fit(ms, capacity - m.size) + [m]
  }

  function Kept(ms: seq<Msg>, filter: Msg -> Applicable): seq<Msg> {
    if ms == [] then []
    else Kept(ms[..|ms| - 1], filter) + (if filter(ms[|ms| - 1]).Future? then [ms[|ms| - 1]] else [])
  }

  function Applied(ms: seq<Msg>, filter: Msg -> Applicable): seq<Msg> {
    if ms == [] then []
    else Applied(ms[..|ms| - 1], filter) + (if filter(ms[|ms| - 1]).Current? then [ms[|ms| - 1]] else [])
  }

  class Buffer {
    var capacity: int
    var size: int
    var messages: seq<Msg>

    ghost predicate Valid()
      reads this
    {
      size == Total(messages) && (messages == [] || size <= capacity)
    }

    constructor (capacity: int)
      ensures Valid() && this.capacity == capacity && messages == []
    {
      this.capacity, this.size, this.messages := capacity, 0, [];
    }

    /** Removing the front of an empty list panics, so an eviction loop must not reach it. */
    method RemoveFront()
      requires messages != []
      modifies this`size, this`messages
      ensures messages == old(messages[1..]) && size == old(size) - old(messages[0].size)
    {
      size := size - messages[0].size;
      messages := messages[1..];
    }

    method Store(m: Msg) returns (stored: bool)
      requires Valid()
      modifies this`size, this`messages
      ensures Valid() && messages == StoreIn(capacity, old(messages), m)
      ensures stored <==> m.size <= capacity
    {
      if m.size > capacity {
        return false;
      }
      while size + m.size > capacity
        invariant size == Total(messages)
        invariant Fit(messages, capacity - m.size) == Fit(old(messages), capacity - m.size)
        decreases |messages|
      {
        RemoveFront();
      }
      TotalConcat(messages, [m]);
      messages := messages + [m];
      size := size + m.size;
      stored := true;
    }

    /** With a negative capacity the loop empties the list and then panics. */
    method Resize(newCapacity: int) returns (ok: bool)
      requires Valid()
      modifies this
      ensures ok <==> newCapacity >= 0
      ensures ok ==> Valid() && capacity == newCapacity && messages == Fit(old(messages), newCapacity)
    {
      capacity := newCapacity;
      while size > capacity
        invariant size == Total(messages) && capacity == newCapacity
        invariant Fit(messages, newCapacity) == Fit(old(messages), newCapacity)
        decreases |messages|
      {
        if messages == [] {
          return false;
        }
        RemoveFront();
      }
      ok := true;
    }

    /** Decides about the message at position i; returns the position of the next one. */
    method Visit(i: nat, filter: Msg -> Applicable, applied: seq<Msg>) returns (next: nat, applied': seq<Msg>)
      requires i < |messages| && size == Total(messages)
      modifies this`size, this`messages
      ensures (messages, next, applied') == Visited(old(messages), i, filter, applied)
      ensures size == Total(messages) <= old(size)
    {
      var m := messages[i];
      if filter(m).Future? {
        return i + 1, applied;
      }
      TotalWithout(messages, i);
      size := size - m.size;
      messages := messages[..i] + messages[i + 1..];
      return i, if filter(m).Current? then applied + [m] else applied;
    }

    method Iterate(filter: Msg -> Applicable) returns (applied: seq<Msg>)
      requires Valid()
      modifies this`size, this`messages
      ensures Valid() && messages == Kept(old(messages), filter) && applied == Applied(old(messages), filter)
    {
      hide Total, Kept, Applied, Iterating, Visited;
      ghost var all := messages;
      var i: nat := 0;
      applied := [];
      StartIterating(all, filter);
      while i < |messages|
        invariant i <= |messages| <= |all| && Iterating(all, filter, messages, i, applied)
        invariant size == Total(messages) <= Total(all)
        decreases |messages| - i
      {
        KeepIterating(all, filter, messages, i, applied);
        i, applied := Visit(i, filter, applied);
      }
      DoneIterating(all, filter, messages, i, applied);
    }
  }

  // ---------------------------------------------------------------- one round of the iteration

  ghost function Visited(ms: seq<Msg>, i: nat, filter: Msg -> Applicable, applied: seq<Msg>): (seq<Msg>, nat, seq<Msg>)
    requires i < |ms|
  {
    if filter(ms[i]).Future? then (ms, i + 1, applied)
    else (ms[..i] + ms[i + 1..], i, if filter(ms[i]).Current? then applied + [ms[i]] else applied)
  }

  /** The part before position i has been decided, the rest is as it was. */
  ghost predicate Iterating(all: seq<Msg>, filter: Msg -> Applicable, ms: seq<Msg>, i: nat, applied: seq<Msg>) {
    && i <= |ms| <= |all|
    && var done := |all| - (|ms| - i);
       ms[..i] == Kept(all[..done], filter) && ms[i..] == all[done..] && applied == Applied(all[..done], filter)
  }

  lemma StartIterating(all: seq<Msg>, filter: Msg -> Applicable)
    ensures Iterating(all, filter, all, 0, [])
  {}

  lemma KeepIterating(all: seq<Msg>, filter: Msg -> Applicable, ms: seq<Msg>, i: nat, applied: seq<Msg>)
    requires Iterating(all, filter, ms, i, applied) && i < |ms|
    ensures
      var (ms1, next, applied1) := Visited(ms, i, filter, applied);
      Iterating(all, filter, ms1, next, applied1) && |ms1| - next < |ms| - i && next <= |ms1| <= |all|
  {
    var done := |all| - (|ms| - i);
    var m := all[done];
    assert ms[i] == ms[i..][0] == m;
    OneMoreSeen(all, filter, done);
    hide Kept, Applied;
    assert ms[i + 1..] == all[done + 1..] by {
      assert ms[i..][1..] == all[done..][1..];
    }
    if filter(m).Future? {
      assert ms[..i + 1] == ms[..i] + [m];
    } else {
      var ms1 := ms[..i] + ms[i + 1..];
      assert ms1[..i] == ms[..i] && ms1[i..] == ms[i + 1..];
      assert Kept(all[..done], filter) + [] == Kept(all[..done], filter);
      assert Applied(all[..done], filter) + [] == Applied(all[..done], filter);
    }
  }

  lemma DoneIterating(all: seq<Msg>, filter: Msg -> Applicable, ms: seq<Msg>, i: nat, applied: seq<Msg>)
    requires Iterating(all, filter, ms, i, applied) && i >= |ms|
    ensures ms == Kept(all, filter) && applied == Applied(all, filter)
  {
    assert ms[..i] == ms && all[..|all|] == all;
  }

  lemma OneMoreSeen(all: seq<Msg>, filter: Msg -> Applicable, i: nat)
    requires i < |all|
    ensures Kept(all[..i + 1], filter) == Kept(all[..i], filter) + (if filter(all[i]).Future? then [all[i]] else [])
    ensures Applied(all[..i + 1], filter) ==
              Applied(all[..i], filter) + (if filter(all[i]).Current? then [all[i]] else [])
  {
    assert all[..i + 1][..i] == all[..i];
  }

  /** Going over the buffer leaves exactly the messages for the future and hands over exactly the current ones, each as
      often as it was there; what is past or invalid is dropped. */
  lemma {:induction false} IterateSorts(ms: seq<Msg>, filter: Msg -> Applicable, m: Msg)
    ensures multiset(Kept(ms, filter))[m] == if filter(m).Future? then multiset(ms)[m] else 0
    ensures multiset(Applied(ms, filter))[m] == if filter(m).Current? then multiset(ms)[m] else 0
    decreases |ms|
  {
    if ms != [] {
      var init, last := ms[..|ms| - 1], ms[|ms| - 1];
      IterateSorts(init, filter, m);
      assert ms == init + [last];
    }
  }

  /** And in the order in which they were there: what comes of the first messages comes first. */
  lemma {:induction false} IterateKeepsOrder(ms: seq<Msg>, filter: Msg -> Applicable, i: nat)
    requires i <= |ms|
    ensures Kept(ms[..i], filter) <= Kept(ms, filter) && Applied(ms[..i], filter) <= Applied(ms, filter)
    decreases |ms|
  {
    if i < |ms| {
      assert ms[..|ms| - 1][..i] == ms[..i];
      IterateKeepsOrder(ms[..|ms| - 1], filter, i);
    } else {
      assert ms[..i] == ms;
    }
  }

  lemma {:induction false} TotalConcat(a: seq<Msg>, b: seq<Msg>)
    ensures Total(a + b) == Total(a) + Total(b)
    decreases |a|
  {
    if a == [] {
      assert a + b == b;
    } else {
      TotalConcat(a[1..], b);
      assert (a + b)[1..] == a[1..] + b;
    }
  }

  lemma TotalWithout(ms: seq<Msg>, i: nat)
    requires i < |ms|
    ensures Total(ms[..i] + ms[i + 1..]) == Total(ms) - ms[i].size
  {
    TotalConcat(ms[..i], ms[i + 1..]);
    TotalConcat(ms[..i], ms[i..]);
    assert ms == ms[..i] + ms[i..] && ms[i..][1..] == ms[i + 1..];
  }

  // ---------------------------------------------------------------- what is stored

  /** The suffix of `ms` starting at k fits, and no longer one does. */
  ghost predicate LongestFitting(ms: seq<Msg>, room: int, k: nat) {
    k <= |ms| && (k == |ms| || Total(ms[k..]) <= room) && forall j | 0 <= j < k :: Total(ms[j..]) > room
  }

  lemma {:induction false} FitIsLongest(ms: seq<Msg>, room: int)
    ensures
      var k := |ms| - |Fit(ms, room)|;
      k >= 0 && Fit(ms, room) == ms[k..] && LongestFitting(ms, room, k)
    decreases |ms|
  {
    if Total(ms) > room && ms != [] {
      FitIsLongest(ms[1..], room);
      var k := |ms| - |Fit(ms, room)|;
      forall j | 0 <= j < k ensures Total(ms[j..]) > room {
        if j > 0 {
          assert ms[j..] == ms[1..][j - 1..];
        } else {
          assert ms[j..] == ms;
        }
      }
      assert ms[k..] == ms[1..][k - 1..];
    }
  }

  lemma {:induction false} DroppedIsTheRest(ms: seq<Msg>, room: int)
    ensures Dropped(ms, room) + Fit(ms, room) == ms
    decreases |ms|
  {
    if Total(ms) > room && ms != [] {
      DroppedIsTheRest(ms[1..], room);
      assert ms == [ms[0]] + ms[1..];
    }
  }

  /** Making less room later is the same as having had less room from the start. */
  lemma {:induction false} FitFit(ms: seq<Msg>, room: int, less: int)
    requires less <= room
    ensures Fit(Fit(ms, room), less) == Fit(ms, less)
    decreases |ms|
  {
    if Total(ms) > room && ms != [] {
      FitFit(ms[1..], room, less);
    }
  }

  lemma {:induction false} FitSnoc(ms: seq<Msg>, m: Msg, room: int)
    requires m.size <= room
    ensures Fit(ms + [m], room) == Fit(ms, room - m.size) + [m]
    decreases |ms|
  {
    TotalConcat(ms, [m]);
    if Total(ms) + m.size > room && ms != [] {
      FitSnoc(ms[1..], m, room);
      assert (ms + [m])[1..] == ms[1..] + [m];
    }
  }

  datatype Op = Put(m: Msg) | ResizeTo(capacity: nat)

  datatype Run = Run(capacity: int, accepted: seq<Msg>, messages: seq<Msg>)

  function Do(r: Run, op: Op): Run {
    match op
    case Put(m) =>
      Run(r.capacity, if m.size <= r.capacity then r.accepted + [m] else r.accepted, StoreIn(r.capacity, r.messages, m))
    case ResizeTo(c) => Run(c, r.accepted, Fit(r.messages, c))
  }

  function After(capacity: int, ops: seq<Op>): Run {
    if ops == [] then Run(capacity, [], []) else Do(After(capacity, ops[..|ops| - 1]), ops[|ops| - 1])
  }

  lemma {:induction false} TotalOfSuffix(ms: seq<Msg>, j: nat)
    requires j <= |ms|
    ensures Total(ms[j..]) <= Total(ms)
    decreases j
  {
    if j > 0 {
      TotalOfSuffix(ms[1..], j - 1);
      assert ms[1..][j - 1..] == ms[j..];
    } else {
      assert ms[j..] == ms;
    }
  }

  /** Which elements of a list survive making room. */
  lemma FitKeeps(ms: seq<Msg>, room: nat, j: nat)
    requires j < |ms|
    ensures
      var d := |ms| - |Fit(ms, room)|;
      d >= 0 && Fit(ms, room) == ms[d..] && Total(Fit(ms, room)) <= room && (j >= d <==> Total(ms[j..]) <= room)
  {
    FitIsLongest(ms, room);
    var d := |ms| - |Fit(ms, room)|;
    if j >= d {
      TotalOfSuffix(ms[d..], j - d);
      assert ms[d..][j - d..] == ms[j..];
    }
  }

  /** At every moment since the i-th accepted message was stored, it and the later ones fit together. */
  ghost predicate AlwaysFit(capacity: int, ops: seq<Op>, i: nat) {
    var r := After(capacity, ops);
    && (i < |r.accepted| ==> FitsFrom(r, i))
    && (ops == [] || AlwaysFit(capacity, ops[..|ops| - 1], i))
  }

  ghost predicate SuffixFits(r: Run) {
    && |r.messages| <= |r.accepted| && r.messages == r.accepted[|r.accepted| - |r.messages|..]
    && (r.messages == [] || Total(r.messages) <= r.capacity)
  }

  /** Making room: of the accepted messages, those stay that were there and fit together with the later ones. */
  lemma MakeRoom(accepted: seq<Msg>, k: nat, room: nat, i: nat)
    requires k <= i < |accepted|
    ensures
      var left := Fit(accepted[k..], room);
      && |left| <= |accepted| - k && left == accepted[|accepted| - |left|..] && Total(left) <= room
      && (i >= |accepted| - |left| <==> Total(accepted[i..]) <= room)
  {
    var ms := accepted[k..];
    FitKeeps(ms, room, i - k);
    assert ms[i - k..] == accepted[i..];
    var d := |ms| - |Fit(ms, room)|;
    assert ms[d..] == accepted[k + d..];
  }

  lemma FitOfNothing(room: int)
    ensures Fit([], room) == [] && Total([]) == 0
  {}

  lemma StoredIsFit(r: Run, m: Msg)
    requires SuffixFits(r) && m.size <= r.capacity
    ensures
      var k := |r.accepted| - |r.messages|;
      && (r.accepted + [m])[k..] == r.messages + [m]
      && StoreIn(r.capacity, r.messages, m) == Fit((r.accepted + [m])[k..], r.capacity)
  {
    hide Fit, Total;
    FitSnoc(r.messages, m, r.capacity);
  }

  ghost predicate Holds(r: Run, i: nat) {
    i < |r.accepted| && i >= |r.accepted| - |r.messages|
  }

  ghost predicate FitsFrom(r: Run, i: nat)
    requires i < |r.accepted|
  {
    Total(r.accepted[i..]) <= r.capacity
  }

  lemma HeldFits(r: Run, i: nat)
    requires SuffixFits(r) && Holds(r, i)
    ensures FitsFrom(r, i)
  {
    var k := |r.accepted| - |r.messages|;
    TotalOfSuffix(r.messages, i - k);
    assert r.messages[i - k..] == r.accepted[i..];
  }

  lemma PutKeeps(r: Run, m: Msg, i: nat)
    requires SuffixFits(r) && m.size <= r.capacity && i <= |r.accepted|
    ensures
      var r1 := Do(r, Put(m));
      SuffixFits(r1) && (Holds(r1, i) <==> (i < |r.accepted| ==> Holds(r, i)) && FitsFrom(r1, i))
  {
    hide Fit, Total;
    var k, all := |r.accepted| - |r.messages|, r.accepted + [m];
    StoredIsFit(r, m);
    MakeRoom(all, k, r.capacity, |r.accepted|);
    if i >= k {
      MakeRoom(all, k, r.capacity, i);
    }
  }

  lemma ResizeKeeps(r: Run, c: nat, i: nat)
    requires SuffixFits(r) && i < |r.accepted|
    ensures
      var r1 := Do(r, ResizeTo(c));
      SuffixFits(r1) && (Holds(r1, i) <==> Holds(r, i) && FitsFrom(r1, i))
  {
    hide Fit, Total;
    var k := |r.accepted| - |r.messages|;
    if r.messages == [] {
      FitOfNothing(c);
    } else {
      MakeRoom(r.accepted, k, c, k);
      if i >= k {
        MakeRoom(r.accepted, k, c, i);
      }
    }
  }

  /** One operation: what was held and still fits stays, and a new message is held. */
  lemma DoKeeps(r: Run, op: Op, i: nat)
    requires SuffixFits(r) && i < |Do(r, op).accepted|
    ensures
      var r1 := Do(r, op);
      SuffixFits(r1) && (Holds(r1, i) <==> (i < |r.accepted| ==> Holds(r, i)) && FitsFrom(r1, i))
  {
    hide Fit, Total, FitsFrom;
    match op
    case Put(m) =>
      if m.size <= r.capacity {
        PutKeeps(r, m, i);
      } else {
        assert Do(r, op) == r;
        if Holds(r, i) {
          HeldFits(r, i);
        }
      }
    case ResizeTo(c) => ResizeKeeps(r, c, i);
  }

  lemma FreshBuffer(capacity: int)
    ensures SuffixFits(Run(capacity, [], []))
  {}

  lemma NothingAccepted(r: Run, op: Op)
    requires SuffixFits(r) && Do(r, op).accepted == []
    ensures SuffixFits(Do(r, op))
  {
    FitOfNothing(if op.ResizeTo? then op.capacity else 0);
  }

  /** For all runs, growing resizes included: the buffer is a suffix of the accepted messages, and a
      message is still in it exactly if it and the later ones have fitted together ever since. */
  lemma {:induction false} RetainedExactly(capacity: int, ops: seq<Op>, i: nat)
    ensures SuffixFits(After(capacity, ops))
    ensures i < |After(capacity, ops).accepted| ==> (Holds(After(capacity, ops), i) <==> AlwaysFit(capacity, ops, i))
    decreases |ops|
  {
    hide Do, FitsFrom, SuffixFits, Holds;
    if ops == [] {
      FreshBuffer(capacity);
    } else {
      var before, op := ops[..|ops| - 1], ops[|ops| - 1];
      var r, r1 := After(capacity, before), After(capacity, ops);
      RetainedExactly(capacity, before, i);
      if i >= |r.accepted| {
        NotYetAccepted(capacity, before, i);
      }
      if r1.accepted == [] {
        NothingAccepted(r, op);
      } else {
        DoKeeps(r, op, if i < |r1.accepted| then i else 0);
      }
    }
  }

  lemma {:induction false} NotYetAccepted(capacity: int, ops: seq<Op>, i: nat)
    requires i >= |After(capacity, ops).accepted|
    ensures AlwaysFit(capacity, ops, i)
    decreases |ops|
  {
    if ops != [] {
      hide Fit;
      NotYetAccepted(capacity, ops[..|ops| - 1], i);
    }
  }

  ghost predicate NeverGrows(capacity: int, ops: seq<Op>) {
    ops == [] ||
      var init, last := ops[..|ops| - 1], ops[|ops| - 1];
      NeverGrows(capacity, init) && (last.ResizeTo? ==> last.capacity <= After(capacity, init).capacity)
  }

  lemma {:induction false} HoldsWhatFits(capacity: int, ops: seq<Op>)
    requires NeverGrows(capacity, ops)
    ensures After(capacity, ops).messages == Fit(After(capacity, ops).accepted, After(capacity, ops).capacity)
    decreases |ops|
  {
    if ops != [] {
      hide Fit, Total;
      var r := After(capacity, ops[..|ops| - 1]);
      HoldsWhatFits(capacity, ops[..|ops| - 1]);
      match ops[|ops| - 1]
      case Put(m) =>
        if m.size <= r.capacity {
          FitSnoc(r.accepted, m, r.capacity);
          FitFit(r.accepted, r.capacity, r.capacity - m.size);
        }
      case ResizeTo(c) => FitFit(r.accepted, r.capacity, c);
    }
  }

  /** After any stores and non-growing resizes the buffer holds exactly the longest suffix of the accepted
      messages that fits its capacity. */
  lemma HoldsLongestFittingSuffix(capacity: int, ops: seq<Op>)
    requires NeverGrows(capacity, ops)
    ensures
      var r := After(capacity, ops);
      var k := |r.accepted| - |r.messages|;
      k >= 0 && r.messages == r.accepted[k..] && LongestFitting(r.accepted, r.capacity, k)
  {
    var r := After(capacity, ops);
    HoldsWhatFits(capacity, ops);
    FitIsLongest(r.accepted, r.capacity);
  }

  /** A growing resize does not bring evicted messages back: storing two messages of size 1 in a buffer of
      capacity 1 and then growing it to 2 leaves one message, although both would fit. */
  lemma GrowingIsDifferent()
    ensures
      var a, b := Msg(0, "", 1), Msg(1, "", 1);
      var r := After(1, [Put(a), Put(b), ResizeTo(2)]);
      r.messages == [b] && r.accepted == [a, b] && Fit(r.accepted, r.capacity) == [a, b]
  {
    var a, b := Msg(0, "", 1), Msg(1, "", 1);
    var ops := [Put(a), Put(b), ResizeTo(2)];
    assert ops[..2] == [Put(a), Put(b)] && [Put(a), Put(b)][..1] == [Put(a)] && [Put(a)][..0] == [];
    assert After(1, [Put(a)]) == Do(Run(1, [], []), Put(a));
    assert After(1, [Put(a), Put(b)]) == Do(After(1, [Put(a)]), Put(b));
    assert After(1, ops) == Do(After(1, [Put(a), Put(b)]), ResizeTo(2));
    assert [a, b][1..] == [b] && [a][1..] == [] && [b][1..] == [];
    assert Total([b]) == 1 && Total([a]) == 1 && Total([a, b]) == 2;
    assert StoreIn(1, [], a) == [a];
    assert Fit([a], 0) == [];
    assert StoreIn(1, [a], b) == [b];
  }
}
