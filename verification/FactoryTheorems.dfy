/** What the factory promises about the events of a submodule and about submodule lifetimes, in every run. */
module FactoryTheorems {
  import opened Lists
  import opened Types
  import opened ModuleIds
  import opened MessageBuffer
  import opened Factory

  // ---------------------------------------------------------------- the way of an event

  function MsgNrs(ms: seq<Msg>): seq<nat> {
    seq(|ms|, i requires 0 <= i < |ms| => ms[i].nr)
  }

  function EventNrs(events: seq<Event>): seq<nat> {
    seq(|events|, i requires 0 <= i < |events| => events[i].nr)
  }

  function HandedNrs(log: seq<Handed>): seq<nat> {
    if log == [] then []
    else HandedNrs(log[..|log| - 1]) + (match log[|log| - 1] case Init => [] case Got(nr) => [nr])
  }

  function BufferedNrs(buffer: seq<Msg>, id: ModuleId): seq<nat> {
    MsgNrs(Applied(buffer, For(id)))
  }

  /** The events of one submodule: handed over, then buffered, then pending. */
  function Path(s: State, id: ModuleId): seq<nat> {
    HandedNrs(LogOf(s, id)) + BufferedNrs(s.buffer, id) + EventNrs(PendingOf(s, id))
  }

  lemma {:induction false} HandedNrsConcat(a: seq<Handed>, b: seq<Handed>)
    ensures HandedNrs(a + b) == HandedNrs(a) + HandedNrs(b)
    decreases |b|
  {
    if b == [] {
      assert a + b == a;
    } else {
      HandedNrsConcat(a, b[..|b| - 1]);
      assert (a + b)[..|a + b| - 1] == a + b[..|b| - 1];
    }
  }

  lemma {:induction false} HandedNrsOfGots(ns: seq<nat>, log: seq<Handed>)
    requires |log| == |ns| && forall i | 0 <= i < |ns| :: log[i] == Got(ns[i])
    ensures HandedNrs(log) == ns
    decreases |ns|
  {
    if ns != [] {
      HandedNrsOfGots(ns[..|ns| - 1], log[..|log| - 1]);
    }
  }

  lemma {:induction false} AppliedConcat(a: seq<Msg>, b: seq<Msg>, filter: Msg -> Applicable)
    ensures Applied(a + b, filter) == Applied(a, filter) + Applied(b, filter)
    decreases |b|
  {
    if b == [] {
      assert a + b == a;
    } else {
      AppliedConcat(a, b[..|b| - 1], filter);
      assert (a + b)[..|a + b| - 1] == a + b[..|b| - 1];
    }
  }

  lemma BufferedConcat(a: seq<Msg>, b: seq<Msg>, id: ModuleId)
    ensures BufferedNrs(a + b, id) == BufferedNrs(a, id) + BufferedNrs(b, id)
  {
    hide Applied;
    AppliedConcat(a, b, For(id));
  }

  lemma BufferedOne(m: Msg, id: ModuleId)
    ensures BufferedNrs([m], id) == if m.dest == id then [m.nr] else []
  {
    AppliedOne(m, For(id));
  }

  lemma AppliedOne(m: Msg, filter: Msg -> Applicable)
    ensures Applied([m], filter) == if filter(m).Current? then [m] else []
  {
    assert [m][..0] == [];
    assert Applied([], filter) == [];
  }

  /** Taking out the messages of one submodule leaves none of its own and all others. */
  lemma {:induction false} AppliedAfterKept(ms: seq<Msg>, id: ModuleId, other: ModuleId)
    ensures Applied(Kept(ms, For(id)), For(other)) == if id == other then [] else Applied(ms, For(other))
    decreases |ms|
  {
    if ms != [] {
      var init, last := ms[..|ms| - 1], ms[|ms| - 1];
      AppliedAfterKept(init, id, other);
      if last.dest != id {
        AppliedConcat(Kept(init, For(id)), [last], For(other));
        AppliedOne(last, For(other));
      } else {
        assert Kept(ms, For(id)) == Kept(init, For(id));
        assert id != other ==> Applied(ms, For(other)) == Applied(init, For(other));
      }
    }
  }

  /** An event disappears from the way of a submodule only by being lost. */
  ghost predicate Cut(before: seq<nat>, a: seq<nat>, b: seq<nat>, c: seq<nat>, after: seq<nat>) {
    before == a + b + c && after == a + c
  }

  /** Where an element after the cut was before it. */
  function PlaceBefore(a: seq<nat>, b: seq<nat>, i: nat): nat {
    if i < |a| then i else i + |b|
  }

  lemma CutAscends(before: seq<nat>, a: seq<nat>, b: seq<nat>, c: seq<nat>, after: seq<nat>)
    requires Ascending(before) && Cut(before, a, b, c, after)
    ensures Ascending(after)
  {
    forall i, j | 0 <= i < j < |after| ensures after[i] < after[j] {
      assert before[PlaceBefore(a, b, i)] == after[i] && before[PlaceBefore(a, b, j)] == after[j];
    }
  }

  lemma CutIsGone(before: seq<nat>, a: seq<nat>, b: seq<nat>, c: seq<nat>, after: seq<nat>, k: nat, i: nat)
    requires Ascending(before) && Cut(before, a, b, c, after) && k < |b| && i < |after|
    ensures after[i] != b[k]
  {
    assert before[|a| + k] == b[k] && before[PlaceBefore(a, b, i)] == after[i];
  }

  lemma CutMembers(a: seq<nat>, b: seq<nat>, c: seq<nat>, n: nat)
    ensures n in a + b + c <==> n in a + c || n in b
  {
    assert n in a + b + c <==> n in a || n in b || n in c;
    assert n in a + c <==> n in a || n in c;
  }

  lemma CutKeepsOrder(before: seq<nat>, a: seq<nat>, b: seq<nat>, c: seq<nat>, after: seq<nat>)
    requires Ascending(before) && Cut(before, a, b, c, after)
    ensures Ascending(after)
    ensures forall n :: n in before <==> n in after || n in b
    ensures forall n | n in b :: n !in after
  {
    CutAscends(before, a, b, c, after);
    forall n ensures n in before <==> n in after || n in b {
      CutMembers(a, b, c, n);
    }
    forall n | n in b ensures n !in after {
      var k :| 0 <= k < |b| && b[k] == n;
      forall i | 0 <= i < |after| ensures after[i] != n {
        CutIsGone(before, a, b, c, after, k, i);
      }
    }
  }

  // ---------------------------------------------------------------- the invariant

  function Operated(capacity: int, buffer: seq<Msg>, op: BufferOp): seq<Msg> {
    match op
    case Stored(m) => StoreIn(capacity, buffer, m)
    case TakenFor(id) => Kept(buffer, For(id))
  }

  /** The buffer after these operations. */
  function Replay(capacity: int, ops: seq<BufferOp>): seq<Msg> {
    if ops == [] then [] else Operated(capacity, Replay(capacity, ops[..|ops| - 1]), ops[|ops| - 1])
  }

  lemma ReplaySnoc(capacity: int, ops: seq<BufferOp>, op: BufferOp)
    ensures Replay(capacity, ops + [op]) == Operated(capacity, Replay(capacity, ops), op)
  {
    assert (ops + [op])[..|ops|] == ops;
  }

  ghost predicate ArrivedMsg(arrivals: seq<Event>, m: Msg) {
    m.nr < |arrivals| && AsMsg(arrivals[m.nr]) == m && arrivals[m.nr].isMessage
  }

  ghost predicate ArrivedMsgs(arrivals: seq<Event>, ms: seq<Msg>) {
    forall m | m in ms :: ArrivedMsg(arrivals, m)
  }

  /** Message n is at place j of the buffer, among those dropped for the new one: it, those buffered after it and the
      new one do not fit together. */
  ghost predicate Overflows(buffer: seq<Msg>, newMsg: Msg, n: nat, capacity: int, j: nat) {
    && j < |Dropped(buffer, capacity - newMsg.size)| && j < |buffer| && buffer[j].nr == n
    && Total(buffer[j..] + [newMsg]) > capacity
  }

  /** Storing a new message evicted message n from this buffer of different messages. */
  ghost predicate EvictedBy(arrivals: seq<Event>, buffer: seq<Msg>, newMsg: Msg, n: nat, capacity: int) {
    && ArrivedMsgs(arrivals, buffer + [newMsg]) && Distinct(MsgNrs(buffer + [newMsg]))
    && exists j :: Overflows(buffer, newMsg, n, capacity, j)
  }

  ghost predicate Matches(arrivals: seq<Event>, ops: seq<BufferOp>, n: nat, reason: Reason, capacity: int) {
    n < |arrivals| &&
      match reason
      case NoMessage => !arrivals[n].isMessage
      case Oversized => arrivals[n].isMessage && arrivals[n].size > capacity
      case Evicted(at) =>
        && at < |ops| && ops[at].Stored?
        && EvictedBy(arrivals, Replay(capacity, ops[..at]), ops[at].m, n, capacity)
  }

  /** A reason stays valid as more happens. */
  lemma MatchesOn(
      arrivals: seq<Event>, ops: seq<BufferOp>, arrivals1: seq<Event>, ops1: seq<BufferOp>,
      lost: map<nat, Reason>, capacity: int)
    requires AllMatch(arrivals, ops, lost, capacity) && arrivals <= arrivals1 && ops <= ops1
    ensures AllMatch(arrivals1, ops1, lost, capacity)
  {
    hide Replay, Overflows;
    forall n | n in lost ensures Matches(arrivals1, ops1, n, lost[n], capacity) {
      assert Matches(arrivals, ops, n, lost[n], capacity);
      if lost[n].Evicted? {
        var at := lost[n].at;
        assert ops1[..at] == ops[..at];
        var ms := Replay(capacity, ops[..at]) + [ops[at].m];
        forall m | m in ms ensures ArrivedMsg(arrivals1, m) {
          assert ArrivedMsg(arrivals, m);
        }
      }
    }
  }

  /** The events of a submodule are in arrival order, and all its own. */
  ghost predicate InOrder(s: State, arrivals: seq<Event>, id: ModuleId) {
    && Ascending(Path(s, id))
    && (forall n | n in Path(s, id) :: n < |arrivals| && arrivals[n].dest == id && n !in s.lost)
    && (id in s.live ==> BufferedNrs(s.buffer, id) == [])
  }

  /** No event vanishes. */
  ghost predicate Accounted(s: State, arrivals: seq<Event>, n: nat)
    requires n < |arrivals|
  {
    n in Path(s, arrivals[n].dest) || n in s.lost
  }

  ghost predicate Genuine(s: State, arrivals: seq<Event>) {
    && (forall id, e | id in s.pending && e in s.pending[id] ::
          e.nr < |arrivals| && arrivals[e.nr] == e && e.dest == id)
    && ArrivedMsgs(arrivals, s.buffer)
  }

  ghost predicate Inv(p: Params, s: State, arrivals: seq<Event>) {
    && (forall id :: InOrder(s, arrivals, id))
    && (forall n | 0 <= n < |arrivals| :: Accounted(s, arrivals, n))
    && AllMatch(arrivals, s.ops, s.lost, p.capacity)
    && s.buffer == Replay(p.capacity, s.ops)
    && Genuine(s, arrivals)
  }

  // ---------------------------------------------------------------- single operations

  /** Every event still on its way is there or lost afterwards; new losses were on the way before. */
  lemma CutKeepsInOrder(s: State, s1: State, arrivals: seq<Event>, id: ModuleId, a: seq<nat>, b: seq<nat>, c: seq<nat>)
    requires InOrder(s, arrivals, id) && Cut(Path(s, id), a, b, c, Path(s1, id))
    requires forall n | n in s1.lost && n !in s.lost && n < |arrivals| && arrivals[n].dest == id :: n in b
    requires id in s1.live ==> BufferedNrs(s1.buffer, id) == []
    ensures InOrder(s1, arrivals, id)
    ensures forall n | n in Path(s, id) :: n in Path(s1, id) || n in b
  {
    hide Path, BufferedNrs;
    CutKeepsOrder(Path(s, id), a, b, c, Path(s1, id));
  }

  lemma EnqueuePath(s: State, e: Event, id: ModuleId)
    ensures Path(Enqueue(s, e), id) == Path(s, id) + (if id == e.dest then [e.nr] else [])
  {
    hide BufferedNrs, HandedNrs;
    var s1 := Enqueue(s, e);
    assert EventNrs(PendingOf(s1, id)) == EventNrs(PendingOf(s, id)) + (if id == e.dest then [e.nr] else []);
  }

  lemma SnocKeepsOrder(ns: seq<nat>, n: nat)
    requires Ascending(ns) && forall x | x in ns :: x < n
    ensures Ascending(ns + [n])
  {
    forall i | 0 <= i < |ns| ensures ns[i] < n {
      assert ns[i] in ns;
    }
  }

  lemma EnqueueInOrder(s: State, arrivals: seq<Event>, e: Event, id: ModuleId)
    requires InOrder(s, arrivals, id) && e.nr == |arrivals| && e.nr !in s.lost
    ensures InOrder(Enqueue(s, e), arrivals + [e], id)
  {
    hide Path, BufferedNrs;
    EnqueuePath(s, e, id);
    SnocKeepsOrder(Path(s, id), e.nr);
  }

  lemma EnqueueKeepsInv(p: Params, s: State, arrivals: seq<Event>, e: Event)
    requires Inv(p, s, arrivals) && e.nr == |arrivals|
    ensures Inv(p, Enqueue(s, e), arrivals + [e])
  {
    hide Path, InOrder, Replay;
    var s1, arrivals1 := Enqueue(s, e), arrivals + [e];
    assert e.nr !in s.lost;
    MatchesOn(arrivals, s.ops, arrivals1, s.ops, s.lost, p.capacity);
    forall id ensures InOrder(s1, arrivals1, id) {
      EnqueueInOrder(s, arrivals, e, id);
    }
    forall n | 0 <= n < |arrivals1| ensures Accounted(s1, arrivals1, n) {
      EnqueuePath(s, e, arrivals1[n].dest);
      if n < |arrivals| {
        assert Accounted(s, arrivals, n);
      }
    }
    forall m | m in s.buffer ensures ArrivedMsg(arrivals1, m) {
      assert ArrivedMsg(arrivals, m);
    }
  }

  /** Handing over the pending events of an existing submodule, creating one, and removing some leave
      every event on its way. */
  lemma SamePathsKeepInv(p: Params, s: State, s1: State, arrivals: seq<Event>)
    requires Inv(p, s, arrivals) && s1.lost == s.lost && Genuine(s1, arrivals)
    requires s.ops <= s1.ops && s1.buffer == Replay(p.capacity, s1.ops)
    requires forall id :: Path(s1, id) == Path(s, id)
    requires forall id | id in s1.live :: BufferedNrs(s1.buffer, id) == []
    ensures Inv(p, s1, arrivals)
  {
    hide Path, BufferedNrs, Genuine, Replay, Matches;
    MatchesOn(arrivals, s.ops, arrivals, s1.ops, s.lost, p.capacity);
    forall id ensures InOrder(s1, arrivals, id) {
      assert InOrder(s, arrivals, id);
      assert Path(s1, id) == Path(s, id);
    }
    forall n | 0 <= n < |arrivals| ensures Accounted(s1, arrivals, n) {
      assert Accounted(s, arrivals, n);
      assert Path(s1, arrivals[n].dest) == Path(s, arrivals[n].dest);
    }
  }

  lemma HandPath(s: State, id0: ModuleId, id: ModuleId)
    requires id0 in s.live && BufferedNrs(s.buffer, id0) == []
    ensures
      var s1 := Hand(s.(pending := s.pending - {id0}), id0, Gots(PendingOf(s, id0)));
      Path(s1, id) == Path(s, id)
  {
    hide BufferedNrs, HandedNrs;
    if id == id0 {
      var events := PendingOf(s, id0);
      HandedNrsConcat(LogOf(s, id0), Gots(events));
      HandedNrsOfGots(EventNrs(events), Gots(events));
      NothingBetween(HandedNrs(LogOf(s, id0)), EventNrs(events));
    }
  }

  lemma NothingBetween(a: seq<nat>, b: seq<nat>)
    ensures a + b + [] + [] == a + [] + b
  {}

  lemma HandKeepsInv(p: Params, s: State, arrivals: seq<Event>, id0: ModuleId)
    requires Inv(p, s, arrivals) && id0 in s.live
    ensures Inv(p, Hand(s.(pending := s.pending - {id0}), id0, Gots(PendingOf(s, id0))), arrivals)
  {
    hide Path, BufferedNrs;
    var s1 := Hand(s.(pending := s.pending - {id0}), id0, Gots(PendingOf(s, id0)));
    forall id ensures Path(s1, id) == Path(s, id) {
      assert InOrder(s, arrivals, id0);
      HandPath(s, id0, id);
    }
    forall id | id in s1.live ensures BufferedNrs(s1.buffer, id) == [] {
      assert InOrder(s, arrivals, id);
    }
    SamePathsKeepInv(p, s, s1, arrivals);
  }

  lemma CreateLog(s: State, id0: ModuleId, r: nat)
    ensures HandedNrs(LogOf(Create(s, id0, r), id0)) == HandedNrs(LogOf(s, id0)) + BufferedNrs(s.buffer, id0)
  {
    hide HandedNrs, Applied, Kept;
    var early := Applied(s.buffer, For(id0));
    HandedNrsConcat(LogOf(s, id0), [Init] + GotMsgs(early));
    HandedNrsConcat([Init], GotMsgs(early));
    HandedNrsOfGots(MsgNrs(early), GotMsgs(early));
    InitHasNoNr();
    assert [] + MsgNrs(early) == MsgNrs(early);
  }

  lemma CreatePath(s: State, id0: ModuleId, r: nat, id: ModuleId)
    requires PendingOf(s, id0) == []
    ensures Path(Create(s, id0, r), id) == Path(s, id)
    ensures BufferedNrs(Create(s, id0, r).buffer, id) == if id == id0 then [] else BufferedNrs(s.buffer, id)
  {
    AppliedAfterKept(s.buffer, id0, id);
    hide HandedNrs, Applied, Kept;
    assert BufferedNrs(Create(s, id0, r).buffer, id) == if id == id0 then [] else BufferedNrs(s.buffer, id);
    hide BufferedNrs;
    if id == id0 {
      CreateLog(s, id0, r);
      NothingBetween(HandedNrs(LogOf(s, id0)), BufferedNrs(s.buffer, id0));
    }
  }

  lemma InitHasNoNr()
    ensures HandedNrs([Init]) == []
  {
    assert [Init][..0] == [];
  }

  lemma {:induction false} KeptAreOld(ms: seq<Msg>, filter: Msg -> Applicable)
    ensures forall m | m in Kept(ms, filter) :: m in ms
    decreases |ms|
  {
    if ms != [] {
      KeptAreOld(ms[..|ms| - 1], filter);
    }
  }

  lemma CreateKeepsInv(p: Params, s: State, arrivals: seq<Event>, id0: ModuleId, r: nat)
    requires Inv(p, s, arrivals) && PendingOf(s, id0) == []
    ensures Inv(p, Create(s, id0, r), arrivals)
  {
    hide Path, BufferedNrs, Kept, Applied;
    var s1 := Create(s, id0, r);
    forall id ensures Path(s1, id) == Path(s, id) {
      CreatePath(s, id0, r, id);
    }
    forall id | id in s1.live ensures BufferedNrs(s1.buffer, id) == [] {
      assert InOrder(s, arrivals, id);
      CreatePath(s, id0, r, id);
    }
    KeptAreOld(s.buffer, For(id0));
    ReplaySnoc(p.capacity, s.ops, TakenFor(id0));
    SamePathsKeepInv(p, s, s1, arrivals);
  }

  lemma {:induction false} CollectKeepsInv(p: Params, s: State, arrivals: seq<Event>, r: nat)
    requires Inv(p, s, arrivals)
    ensures Inv(p, GarbageCollect(s, r), arrivals)
    decreases r - s.retIdx
  {
    if r > s.retIdx {
      hide Path, BufferedNrs;
      var s1 := CollectOne(s);
      forall id ensures Path(s1, id) == Path(s, id) {
        CollectPath(s, id);
      }
      forall id | id in s1.live ensures BufferedNrs(s1.buffer, id) == [] {
        assert InOrder(s, arrivals, id);
      }
      SamePathsKeepInv(p, s, s1, arrivals);
      CollectKeepsInv(p, s1, arrivals, r);
    }
  }

  lemma CollectPath(s: State, id: ModuleId)
    ensures Path(CollectOne(s), id) == Path(s, id)
  {}

  // ---------------------------------------------------------------- early events

  lemma {:induction false} LoseMeans(lost: map<nat, Reason>, dropped: seq<Msg>, at: nat, n: nat)
    ensures n in Lose(lost, dropped, at) <==> n in lost || n in MsgNrs(dropped)
    ensures n in Lose(lost, dropped, at) ==>
      || (n in lost && Lose(lost, dropped, at)[n] == lost[n])
      || (n in MsgNrs(dropped) && Lose(lost, dropped, at)[n] == Evicted(at))
    decreases |dropped|
  {
    if dropped != [] {
      var init, last := dropped[..|dropped| - 1], dropped[|dropped| - 1];
      LoseMeans(lost, init, at, n);
      assert MsgNrs(dropped) == MsgNrs(init) + [last.nr];
    }
  }

  lemma {:induction false} AppliedHas(ms: seq<Msg>, id: ModuleId, m: Msg)
    ensures m in Applied(ms, For(id)) <==> m in ms && m.dest == id
    decreases |ms|
  {
    if ms != [] {
      AppliedHas(ms[..|ms| - 1], id, m);
      assert ms == ms[..|ms| - 1] + [ms[|ms| - 1]];
    }
  }

  lemma BufferedHas(ms: seq<Msg>, id: ModuleId, n: nat)
    ensures n in BufferedNrs(ms, id) <==> exists m | m in ms :: m.dest == id && m.nr == n
  {
    var own := Applied(ms, For(id));
    if n in BufferedNrs(ms, id) {
      var i :| 0 <= i < |own| && MsgNrs(own)[i] == n;
      AppliedHas(ms, id, own[i]);
    }
    if m :| m in ms && m.dest == id && m.nr == n {
      AppliedHas(ms, id, m);
      var i :| 0 <= i < |own| && own[i] == m;
      assert MsgNrs(own)[i] == n;
    }
  }

  lemma MsgNrsHas(ms: seq<Msg>, n: nat)
    ensures n in MsgNrs(ms) <==> exists m | m in ms :: m.nr == n
  {
    if n in MsgNrs(ms) {
      var i :| 0 <= i < |ms| && MsgNrs(ms)[i] == n;
      assert ms[i] in ms;
    }
    if m :| m in ms && m.nr == n {
      var i :| 0 <= i < |ms| && ms[i] == m;
      assert MsgNrs(ms)[i] == n;
    }
  }

  predicate Fits(p: Params, e: Event) {
    e.isMessage && e.size <= p.capacity
  }

  /** The parts of a submodule's way around what is lost when an early event is taken up. */
  function LostPart(p: Params, s: State, id0: ModuleId, id: ModuleId): seq<nat>
    requires PendingOf(s, id0) != []
  {
    var e := s.pending[id0][0];
    if Fits(p, e) then BufferedNrs(Dropped(s.buffer, p.capacity - e.size), id)
    else if id == id0 then [e.nr]
    else []
  }

  lemma RejectedPath(p: Params, s: State, id0: ModuleId, id: ModuleId) returns (a: seq<nat>, c: seq<nat>)
    requires PendingOf(s, id0) != [] && !Fits(p, s.pending[id0][0])
    ensures Cut(Path(s, id), a, LostPart(p, s, id0, id), c, Path(BufferFirst(p, s, id0), id))
  {
    hide BufferedNrs, HandedNrs;
    var events := PendingOf(s, id);
    a := HandedNrs(LogOf(s, id)) + BufferedNrs(s.buffer, id);
    if id == id0 {
      c := EventNrs(events[1..]);
      assert EventNrs(events) == [events[0].nr] + c;
    } else {
      c := EventNrs(events);
    }
  }

  lemma StoredParts(p: Params, s: State, id0: ModuleId, id: ModuleId)
    requires PendingOf(s, id0) != [] && Fits(p, s.pending[id0][0])
    ensures
      var s1, e := BufferFirst(p, s, id0), s.pending[id0][0];
      && s1.buffer == Fit(s.buffer, p.capacity - e.size) + [AsMsg(e)]
      && LogOf(s1, id) == LogOf(s, id)
      && PendingOf(s1, id) == if id == id0 then PendingOf(s, id)[1..] else PendingOf(s, id)
  {
    hide Fit, Dropped, Total, Lose;
  }

  lemma StoredPath(p: Params, s: State, id0: ModuleId, id: ModuleId) returns (a: seq<nat>, c: seq<nat>)
    requires PendingOf(s, id0) != [] && Fits(p, s.pending[id0][0]) && s.pending[id0][0].dest == id0
    ensures Cut(Path(s, id), a, LostPart(p, s, id0, id), c, Path(BufferFirst(p, s, id0), id))
  {
    hide BufferedNrs, HandedNrs, Fit, Dropped, Total, BufferFirst, LogOf;
    var events, e := PendingOf(s, id), s.pending[id0][0];
    var room := p.capacity - e.size;
    var fit, dropped := Fit(s.buffer, room), Dropped(s.buffer, room);
    StoredParts(p, s, id0, id);
    DroppedIsTheRest(s.buffer, room);
    BufferedConcat(dropped, fit, id);
    BufferedConcat(fit, [AsMsg(e)], id);
    BufferedOne(AsMsg(e), id);
    a := HandedNrs(LogOf(s, id));
    c := BufferedNrs(fit, id) + EventNrs(events);
    if id == id0 {
      assert EventNrs(events) == [e.nr] + EventNrs(events[1..]);
    }
    Regroup(a, BufferedNrs(dropped, id), BufferedNrs(fit, id), if id == id0 then [e.nr] else [],
            if id == id0 then EventNrs(events[1..]) else EventNrs(events));
  }

  lemma Regroup(a: seq<nat>, b: seq<nat>, c: seq<nat>, d: seq<nat>, e: seq<nat>)
    ensures a + (b + c) + (d + e) == a + b + (c + (d + e))
    ensures a + (c + d) + e == a + (c + (d + e))
    ensures [] + e == e && c + [] == c
  {}

  lemma FirstPath(p: Params, s: State, id0: ModuleId, id: ModuleId) returns (a: seq<nat>, c: seq<nat>)
    requires PendingOf(s, id0) != [] && s.pending[id0][0].dest == id0
    ensures Cut(Path(s, id), a, LostPart(p, s, id0, id), c, Path(BufferFirst(p, s, id0), id))
  {
    if Fits(p, s.pending[id0][0]) {
      a, c := StoredPath(p, s, id0, id);
    } else {
      a, c := RejectedPath(p, s, id0, id);
    }
  }

  /** What is newly lost, and whose it was. */
  lemma NewlyLost(p: Params, s: State, arrivals: seq<Event>, id0: ModuleId, n: nat)
    requires Genuine(s, arrivals) && PendingOf(s, id0) != []
    ensures n in BufferFirst(p, s, id0).lost && n !in s.lost ==>
              n < |arrivals| && n in LostPart(p, s, id0, arrivals[n].dest)
    ensures forall id | n in LostPart(p, s, id0, id) :: n in BufferFirst(p, s, id0).lost
    ensures forall k | k in s.lost :: k in BufferFirst(p, s, id0).lost
  {
    hide BufferedNrs, Fit, Dropped, Total, Lose;
    var e := s.pending[id0][0];
    assert e in s.pending[id0];
    if Fits(p, e) {
      var room := p.capacity - e.size;
      var dropped := Dropped(s.buffer, room);
      DroppedIsTheRest(s.buffer, room);
      assert forall m | m in dropped :: m in s.buffer;
      LoseMeans(s.lost, dropped, |s.ops|, n);
      MsgNrsHas(dropped, n);
      if n in BufferFirst(p, s, id0).lost && n !in s.lost {
        var m :| m in dropped && m.nr == n;
        assert m in s.buffer;
        BufferedHas(dropped, m.dest, n);
      }
      forall id | n in LostPart(p, s, id0, id) ensures n in BufferFirst(p, s, id0).lost {
        BufferedHas(dropped, id, n);
      }
      forall k | k in s.lost ensures k in BufferFirst(p, s, id0).lost {
        LoseMeans(s.lost, dropped, |s.ops|, k);
      }
    }
  }

  lemma FirstInOrder(p: Params, s: State, arrivals: seq<Event>, id0: ModuleId, id: ModuleId)
    requires Inv(p, s, arrivals) && id0 !in s.live && PendingOf(s, id0) != []
    ensures InOrder(BufferFirst(p, s, id0), arrivals, id)
    ensures forall n | n in Path(s, id) :: n in Path(BufferFirst(p, s, id0), id) || n in BufferFirst(p, s, id0).lost
  {
    hide Path, LostPart;
    var s1 := BufferFirst(p, s, id0);
    assert s.pending[id0][0] in s.pending[id0];
    assert InOrder(s, arrivals, id);
    var a, c := FirstPath(p, s, id0, id);
    forall n: nat
      ensures n in s1.lost && n !in s.lost && n < |arrivals| && arrivals[n].dest == id ==> n in LostPart(p, s, id0, id)
      ensures n in LostPart(p, s, id0, id) ==> n in s1.lost
    {
      NewlyLost(p, s, arrivals, id0, n);
    }
    LiveStayUnbuffered(p, s, id0, id);
    CutKeepsInOrder(s, s1, arrivals, id, a, LostPart(p, s, id0, id), c);
  }

  lemma LiveStayUnbuffered(p: Params, s: State, id0: ModuleId, id: ModuleId)
    requires PendingOf(s, id0) != [] && s.pending[id0][0].dest == id0 && id0 !in s.live
    requires id in s.live ==> BufferedNrs(s.buffer, id) == []
    ensures id in BufferFirst(p, s, id0).live ==> BufferedNrs(BufferFirst(p, s, id0).buffer, id) == []
  {
    hide BufferedNrs, Fit, Dropped, Total;
    var e := s.pending[id0][0];
    if id in s.live && Fits(p, e) {
      var room := p.capacity - e.size;
      DroppedIsTheRest(s.buffer, room);
      BufferedConcat(Dropped(s.buffer, room), Fit(s.buffer, room), id);
      BufferedConcat(Fit(s.buffer, room), [AsMsg(e)], id);
      BufferedOne(AsMsg(e), id);
    }
  }

  lemma FirstGenuine(p: Params, s: State, arrivals: seq<Event>, id0: ModuleId)
    requires Genuine(s, arrivals) && PendingOf(s, id0) != []
    ensures Genuine(BufferFirst(p, s, id0), arrivals)
  {
    hide Fit, Dropped, Total, Lose;
    var e := s.pending[id0][0];
    assert e in s.pending[id0];
    assert forall x | x in s.pending[id0][1..] :: x in s.pending[id0];
    if Fits(p, e) {
      var room := p.capacity - e.size;
      DroppedIsTheRest(s.buffer, room);
      assert forall m | m in Fit(s.buffer, room) :: m in s.buffer;
    }
  }

  ghost predicate AllMatch(arrivals: seq<Event>, ops: seq<BufferOp>, lost: map<nat, Reason>, capacity: int) {
    forall n | n in lost :: Matches(arrivals, ops, n, lost[n], capacity)
  }

  lemma FirstMatches(p: Params, s: State, arrivals: seq<Event>, id0: ModuleId)
    requires Inv(p, s, arrivals) && PendingOf(s, id0) != []
    ensures
      var s1 := BufferFirst(p, s, id0);
      AllMatch(arrivals, s1.ops, s1.lost, p.capacity) && s1.buffer == Replay(p.capacity, s1.ops)
  {
    hide Path, InOrder, Replay, EvictedBy;
    var s1, e := BufferFirst(p, s, id0), s.pending[id0][0];
    assert e in s.pending[id0] && arrivals[e.nr] == e;
    MatchesOn(arrivals, s.ops, arrivals, s1.ops, s.lost, p.capacity);
    if Fits(p, e) {
      ReplaySnoc(p.capacity, s.ops, Stored(AsMsg(e)));
      NewIsDifferent(p, s, arrivals, id0);
      DroppedMatches(p, s, arrivals, e, s1);
    }
  }

  lemma DroppedMatches(p: Params, s: State, arrivals: seq<Event>, e: Event, s1: State)
    requires Genuine(s, arrivals) && ArrivedMsg(arrivals, AsMsg(e)) && e.size <= p.capacity
    requires s.buffer == Replay(p.capacity, s.ops) && Distinct(MsgNrs(s.buffer + [AsMsg(e)]))
    requires s1.ops == s.ops + [Stored(AsMsg(e))] && AllMatch(arrivals, s1.ops, s.lost, p.capacity)
    requires s1.lost == Lose(s.lost, Dropped(s.buffer, p.capacity - e.size), |s.ops|)
    ensures AllMatch(arrivals, s1.ops, s1.lost, p.capacity)
  {
    hide Fit, Dropped, Total, Lose, Replay;
    var room := p.capacity - e.size;
    var dropped := Dropped(s.buffer, room);
    assert s1.ops[..|s.ops|] == s.ops;
    DroppedIsTheRest(s.buffer, room);
    forall n | n in s1.lost ensures Matches(arrivals, s1.ops, n, s1.lost[n], p.capacity) {
      LoseMeans(s.lost, dropped, |s.ops|, n);
      if !(n in s.lost && s1.lost[n] == s.lost[n]) {
        var j :| 0 <= j < |dropped| && MsgNrs(dropped)[j] == n;
        EvictedForRoom(s.buffer, room, j, AsMsg(e));
        assert Overflows(s.buffer, AsMsg(e), n, p.capacity, j);
        assert s.buffer[j] in s.buffer && ArrivedMsg(arrivals, s.buffer[j]);
      }
    }
  }

  /** An evicted message, those buffered after it and the new one together exceed the capacity. */
  lemma EvictedForRoom(buffer: seq<Msg>, room: int, j: nat, m: Msg)
    requires j < |Dropped(buffer, room)| && m.size + room >= 0
    ensures j < |buffer| && Total(buffer[j..] + [m]) > room + m.size
  {
    DroppedIsTheRest(buffer, room);
    FitIsLongest(buffer, room);
    hide Dropped, Fit, Total;
    TotalConcat(buffer[j..], [m]);
    TotalOfOne(m);
  }

  /** Two messages for a submodule come in the same order among those for it. */
  lemma BufferedPlaces(ms: seq<Msg>, id: ModuleId, i: nat, k: nat)
    requires i < k < |ms| && ms[i].dest == id && ms[k].dest == id && Ascending(BufferedNrs(ms, id))
    ensures ms[i].nr < ms[k].nr
  {
    hide Applied;
    var a, b, c := ms[..i], ms[i + 1..k], ms[k + 1..];
    assert ms == a + ([ms[i]] + (b + ([ms[k]] + c)));
    BufferedConcat(a, [ms[i]] + (b + ([ms[k]] + c)), id);
    BufferedConcat([ms[i]], b + ([ms[k]] + c), id);
    BufferedConcat(b, [ms[k]] + c, id);
    BufferedConcat([ms[k]], c, id);
    BufferedOne(ms[i], id);
    BufferedOne(ms[k], id);
    var nrs, at, later := BufferedNrs(ms, id), |BufferedNrs(a, id)|, |BufferedNrs(b, id)|;
    assert nrs[at] == ms[i].nr && nrs[at + 1 + later] == ms[k].nr;
  }

  lemma PartAscends(a: seq<nat>, b: seq<nat>, c: seq<nat>)
    requires Ascending(a + b + c)
    ensures Ascending(b) && forall x, y | x in b && y in c :: x < y
  {
    var all := a + b + c;
    assert forall i | 0 <= i < |b| :: all[|a| + i] == b[i];
    assert forall i | 0 <= i < |c| :: all[|a| + |b| + i] == c[i];
  }

  lemma PendingIsLater(p: Params, s: State, arrivals: seq<Event>, id0: ModuleId, m: Msg)
    requires Inv(p, s, arrivals) && PendingOf(s, id0) != [] && m in s.buffer
    ensures m.nr != s.pending[id0][0].nr
  {
    hide BufferedNrs, HandedNrs, Replay, Matches;
    var e := s.pending[id0][0];
    assert e in s.pending[id0] && ArrivedMsg(arrivals, m);
    if m.dest == id0 {
      assert InOrder(s, arrivals, id0);
      PartAscends(HandedNrs(LogOf(s, id0)), BufferedNrs(s.buffer, id0), EventNrs(PendingOf(s, id0)));
      BufferedHas(s.buffer, id0, m.nr);
      assert EventNrs(PendingOf(s, id0))[0] == e.nr;
      assert m.nr in BufferedNrs(s.buffer, id0) && e.nr in EventNrs(PendingOf(s, id0));
    }
  }

  lemma BufferedAreDifferent(p: Params, s: State, arrivals: seq<Event>, i: nat, k: nat)
    requires Inv(p, s, arrivals) && i < k < |s.buffer|
    ensures s.buffer[i].nr != s.buffer[k].nr
  {
    hide BufferedNrs, HandedNrs, Replay, Matches;
    var id := s.buffer[i].dest;
    assert s.buffer[i] in s.buffer && s.buffer[k] in s.buffer;
    if s.buffer[k].dest == id {
      assert InOrder(s, arrivals, id);
      PartAscends(HandedNrs(LogOf(s, id)), BufferedNrs(s.buffer, id), EventNrs(PendingOf(s, id)));
      BufferedPlaces(s.buffer, id, i, k);
    } else {
      assert ArrivedMsg(arrivals, s.buffer[i]) && ArrivedMsg(arrivals, s.buffer[k]);
    }
  }

  /** The messages in the buffer and the first pending event are all different. */
  lemma NewIsDifferent(p: Params, s: State, arrivals: seq<Event>, id0: ModuleId)
    requires Inv(p, s, arrivals) && PendingOf(s, id0) != []
    ensures Distinct(MsgNrs(s.buffer + [AsMsg(s.pending[id0][0])]))
  {
    hide Inv;
    var ms := s.buffer + [AsMsg(s.pending[id0][0])];
    forall i, k | 0 <= i < k < |ms| ensures ms[i].nr != ms[k].nr {
      if k < |s.buffer| {
        BufferedAreDifferent(p, s, arrivals, i, k);
      } else {
        PendingIsLater(p, s, arrivals, id0, s.buffer[i]);
      }
    }
  }

  lemma TotalOfOne(m: Msg)
    ensures Total([m]) == m.size
  {}

  lemma FirstKeepsInv(p: Params, s: State, arrivals: seq<Event>, id0: ModuleId)
    requires Inv(p, s, arrivals) && id0 !in s.live && PendingOf(s, id0) != []
    ensures Inv(p, BufferFirst(p, s, id0), arrivals)
  {
    hide InOrder, Genuine, BufferFirst, Path, Matches, Replay;
    var s1 := BufferFirst(p, s, id0);
    forall id ensures InOrder(s1, arrivals, id) {
      FirstInOrder(p, s, arrivals, id0, id);
    }
    forall n | 0 <= n < |arrivals| ensures Accounted(s1, arrivals, n) {
      assert Accounted(s, arrivals, n);
      FirstInOrder(p, s, arrivals, id0, arrivals[n].dest);
      NewlyLost(p, s, arrivals, id0, n);
    }
    FirstGenuine(p, s, arrivals, id0);
    FirstMatches(p, s, arrivals, id0);
  }

  lemma {:induction false} EarlyKeepsInv(p: Params, s: State, arrivals: seq<Event>, id0: ModuleId)
    requires Inv(p, s, arrivals) && id0 !in s.live
    ensures Inv(p, BufferEarly(p, s, id0), arrivals)
    ensures BufferEarly(p, s, id0).live == s.live && BufferEarly(p, s, id0).pending == s.pending - {id0}
    decreases |PendingOf(s, id0)|
  {
    if PendingOf(s, id0) == [] {
      NothingPending(p, s, arrivals, id0);
    } else {
      FirstKeepsInv(p, s, arrivals, id0);
      hide Inv, TryBuffering;
      PendingAfterFirst(p, s, id0);
      EarlyKeepsInv(p, BufferFirst(p, s, id0), arrivals, id0);
    }
  }

  lemma PendingAfterFirst(p: Params, s: State, id0: ModuleId)
    requires PendingOf(s, id0) != []
    ensures
      var s1 := BufferFirst(p, s, id0);
      && s1.live == s.live && s1.pending == s.pending[id0 := s.pending[id0][1..]]
      && s1.pending - {id0} == s.pending - {id0}
  {}

  lemma NothingPending(p: Params, s: State, arrivals: seq<Event>, id0: ModuleId)
    requires Inv(p, s, arrivals) && PendingOf(s, id0) == []
    ensures Inv(p, s.(pending := s.pending - {id0}), arrivals)
  {
    var s1 := s.(pending := s.pending - {id0});
    forall id ensures Path(s1, id) == Path(s, id) && (id in s1.live ==> BufferedNrs(s1.buffer, id) == []) {
      assert InOrder(s, arrivals, id);
    }
    SamePathsKeepInv(p, s, s1, arrivals);
  }

  lemma DistributeKeepsInv(p: Params, s: State, arrivals: seq<Event>, id: ModuleId)
    requires Inv(p, s, arrivals)
    ensures Inv(p, Distribute(p, s, id), arrivals)
    ensures Distribute(p, s, id).live == s.live && Distribute(p, s, id).pending == s.pending - {id}
  {
    hide Inv;
    if id in s.live {
      HandKeepsInv(p, s, arrivals, id);
    } else {
      EarlyKeepsInv(p, s, arrivals, id);
    }
  }

  lemma {:induction false} DistributeAllKeepsInv(p: Params, s: State, arrivals: seq<Event>, order: seq<ModuleId>)
    requires Inv(p, s, arrivals)
    ensures Inv(p, DistributeAll(p, s, order), arrivals)
    ensures DistributeAll(p, s, order).live == s.live
    ensures forall id :: id in DistributeAll(p, s, order).pending <==> id in s.pending && id !in order
    decreases |order|
  {
    hide Inv, Distribute;
    if order != [] {
      var init := order[..|order| - 1];
      DistributeAllKeepsInv(p, s, arrivals, init);
      DistributeKeepsInv(p, DistributeAll(p, s, init), arrivals, order[|order| - 1]);
      assert order == init + [order[|order| - 1]];
    }
  }

  lemma StepKeepsInv(p: Params, s: State, arrivals: seq<Event>, m: Move)
    requires Inv(p, s, arrivals) && Possible(s, m) && Step(p, s, |arrivals|, m).Some?
    ensures Inv(p, Step(p, s, |arrivals|, m).value, Arrived(History(s, arrivals, []), m))
    ensures !m.SubmoduleEvent? ==> Step(p, s, |arrivals|, m).value.pending == map[]
  {
    hide Inv, DistributeAll, Create, GarbageCollect;
    match m
    case SubmoduleEvent(dest, isMessage, size) =>
      EnqueueKeepsInv(p, s, arrivals, Event(|arrivals|, dest, isMessage, size));
    case New(order, id, r, generated) =>
      DistributeAllKeepsInv(p, s, arrivals, order);
      var d := DistributeAll(p, s, order);
      assert d.pending == map[];
      if r >= d.retIdx && generated {
        CreateKeepsInv(p, d, arrivals, id, r);
        CreatePending(d, id, r);
      }
    case Collect(order, r) =>
      DistributeAllKeepsInv(p, s, arrivals, order);
      var d := DistributeAll(p, s, order);
      assert d.pending == map[];
      CollectKeepsInv(p, d, arrivals, r);
      CollectPending(d, r);
    case Distributed(order) =>
      DistributeAllKeepsInv(p, s, arrivals, order);
      assert DistributeAll(p, s, order).pending == map[];
  }

  lemma CreatePending(s: State, id: ModuleId, r: nat)
    ensures Create(s, id, r).pending == s.pending
  {}

  lemma {:induction false} CollectPending(s: State, r: nat)
    ensures GarbageCollect(s, r).pending == s.pending
    decreases r - s.retIdx
  {
    if r > s.retIdx {
      CollectPending(CollectOne(s), r);
    }
  }

  lemma {:induction false} RunKeepsInv(p: Params, moves: seq<Move>)
    requires PossibleRun(p, moves) && Play(p, moves).Some?
    ensures Inv(p, Play(p, moves).value.s, Play(p, moves).value.arrivals)
    decreases |moves|
  {
    if moves == [] {
      EmptyInv(p);
    } else {
      hide Inv, Step;
      var init, m := moves[..|moves| - 1], moves[|moves| - 1];
      RunKeepsInv(p, init);
      var h := Play(p, init).value;
      StepKeepsInv(p, h.s, h.arrivals, m);
    }
  }

  lemma EmptyInv(p: Params)
    ensures Inv(p, Factory.EMPTY, [])
  {
    forall id ensures InOrder(Factory.EMPTY, [], id) {
      assert Path(Factory.EMPTY, id) == [];
    }
  }

  // ---------------------------------------------------------------- ordering and conservation

  /** In every run, the events handed to the submodules under one identifier are a subsequence of the
      events that arrived for it, in arrival order and without repetitions. */
  lemma HandedInArrivalOrder(p: Params, moves: seq<Move>, id: ModuleId)
    requires PossibleRun(p, moves) && Play(p, moves).Some?
    ensures
      var h := Play(p, moves).value;
      var nrs := HandedNrs(LogOf(h.s, id));
      Ascending(nrs) && forall n | n in nrs :: n < |h.arrivals| && h.arrivals[n].dest == id
  {
    hide HandedNrs, BufferedNrs, EventNrs, Play;
    RunKeepsInv(p, moves);
    var h := Play(p, moves).value;
    assert InOrder(h.s, h.arrivals, id);
    var nrs := HandedNrs(LogOf(h.s, id));
    assert forall i | 0 <= i < |nrs| :: nrs[i] == Path(h.s, id)[i];
    assert forall n | n in nrs :: n in Path(h.s, id);
  }

  /** No event vanishes: each is handed over, buffered, pending or lost, exactly one of these, and it is lost only
      because it is not a message, is larger than the whole buffer, or was evicted: when another message was stored,
      it and the messages that were in the buffer after it did not fit together with the new one. */
  lemma EventsAreConserved(p: Params, moves: seq<Move>, n: nat)
    requires PossibleRun(p, moves) && Play(p, moves).Some? && n < |Play(p, moves).value.arrivals|
    ensures
      var h := Play(p, moves).value;
      && (n in Path(h.s, h.arrivals[n].dest) <==> n !in h.s.lost)
      && (n in h.s.lost ==> Matches(h.arrivals, h.s.ops, n, h.s.lost[n], p.capacity))
      && h.s.buffer == Replay(p.capacity, h.s.ops)
      && Ascending(Path(h.s, h.arrivals[n].dest))
  {
    hide Path, Play;
    RunKeepsInv(p, moves);
    var h := Play(p, moves).value;
    assert Accounted(h.s, h.arrivals, n);
    assert InOrder(h.s, h.arrivals, h.arrivals[n].dest);
  }

  /** A new submodule is given its Init event and then at once, in arrival order, all events for it that
      arrived earlier and were neither handed to a predecessor nor lost. */
  lemma EarlyRightAfterInit(p: Params, moves: seq<Move>, h: History, m: Move)
    requires PossibleRun(p, moves) && Play(p, moves) == Some(h) && Possible(h.s, m)
    requires m.New? && m.retIdx >= h.s.retIdx && Step(p, h.s, |h.arrivals|, m).Some?
    ensures
      var d, after := DistributeAll(p, h.s, m.order), Step(p, h.s, |h.arrivals|, m).value;
      && LogOf(after, m.id) == LogOf(d, m.id) + [Init] + GotMsgs(Applied(d.buffer, For(m.id)))
      && (forall n | 0 <= n < |h.arrivals| && h.arrivals[n].dest == m.id && n !in after.lost ::
            n in HandedNrs(LogOf(after, m.id)))
  {
    hide Inv, HandedNrs, Applied, Play, PossibleRun, DistributeAll, Step;
    RunKeepsInv(p, moves);
    StepKeepsInv(p, h.s, h.arrivals, m);
    NewCreates(p, h.s, h.arrivals, m);
    var d := DistributeAll(p, h.s, m.order);
    CreatedLog(d, m.id, m.retIdx);
    hide Create;
    AllEarlyHanded(p, Create(d, m.id, m.retIdx), h.arrivals, d, m.id, m.retIdx);
  }

  lemma NewCreates(p: Params, s: State, arrivals: seq<Event>, m: Move)
    requires Inv(p, s, arrivals) && Possible(s, m) && m.New? && m.retIdx >= s.retIdx
    requires Step(p, s, |arrivals|, m).Some?
    ensures
      var d := DistributeAll(p, s, m.order);
      d.pending == map[] && Step(p, s, |arrivals|, m).value == Create(d, m.id, m.retIdx)
  {
    hide Inv, DistributeAll, Create;
    RetIdxUnchanged(p, s, m.order);
    DistributeAllKeepsInv(p, s, arrivals, m.order);
    assert DistributeAll(p, s, m.order).pending == map[];
  }

  lemma CreatedLog(s: State, id: ModuleId, r: nat)
    ensures LogOf(Create(s, id, r), id) == LogOf(s, id) + [Init] + GotMsgs(Applied(s.buffer, For(id)))
  {
    hide Applied, Kept, GotMsgs;
    var log, got := LogOf(s, id), GotMsgs(Applied(s.buffer, For(id)));
    assert log + ([Init] + got) == log + [Init] + got;
  }

  lemma AllEarlyHanded(p: Params, s: State, arrivals: seq<Event>, d: State, id: ModuleId, r: nat)
    requires Inv(p, s, arrivals) && s == Create(d, id, r) && s.pending == map[] && d.pending == map[]
    ensures forall n | 0 <= n < |arrivals| && arrivals[n].dest == id && n !in s.lost :: n in HandedNrs(LogOf(s, id))
  {
    hide HandedNrs, Applied, Kept, Create, BufferedNrs;
    CreatePath(d, id, r, id);
    forall n | 0 <= n < |arrivals| && arrivals[n].dest == id && n !in s.lost ensures n in HandedNrs(LogOf(s, id)) {
      assert Accounted(s, arrivals, n);
    }
  }

  lemma {:induction false} RetIdxUnchanged(p: Params, s: State, order: seq<ModuleId>)
    ensures DistributeAll(p, s, order).retIdx == s.retIdx && DistributeAll(p, s, order).retention == s.retention
    ensures DistributeAll(p, s, order).live == s.live
    decreases |order|
  {
    if order != [] {
      RetIdxUnchanged(p, s, order[..|order| - 1]);
      OnlyEventsMove(p, DistributeAll(p, s, order[..|order| - 1]), order[|order| - 1]);
    }
  }

  lemma {:induction false} OnlyEventsMove(p: Params, s: State, id: ModuleId)
    ensures Distribute(p, s, id).retIdx == s.retIdx && Distribute(p, s, id).retention == s.retention
    ensures Distribute(p, s, id).live == s.live
    decreases |PendingOf(s, id)|
  {
    hide StoreIn, Dropped, Lose;
    if id !in s.live && PendingOf(s, id) != [] {
      OnlyEventsMove(p, BufferFirst(p, s, id), id);
    }
  }
}
