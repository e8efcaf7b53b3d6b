/** The node's event loop as functions of its state (node.go, eventbuffer.go): events are routed to
    per-module buffers and dispatched in batches; input is paused when too much is buffered. */
module Node {
  import opened ModuleIds

  datatype Event = Event(nr: nat, dest: ModuleId)

  datatype Config = Config(maxBatch: int, pause: int, resume: int)

  /** The checks made on a configuration. */
  predicate ValidConfig(c: Config) {
    c.maxBatch > 0 && c.pause > 0 && c.resume >= 0 && c.pause >= c.resume
  }

  type Buffers = map<ModuleId, seq<Event>>

  datatype State = State(buffers: Buffers, total: int, paused: bool)

  function EmptyBuffers(modules: set<ModuleId>): Buffers {
    map m | m in modules :: []
  }

  /** Events for modules that do not exist are dropped. */
  function AddOne(s: State, e: Event): State {
    var m := Top(e.dest);
    if m in s.buffers then s.(buffers := s.buffers[m := s.buffers[m] + [e]], total := s.total + 1) else s
  }

  function Add(s: State, events: seq<Event>): State {
    if events == [] then s else AddOne(Add(s, events[..|events| - 1]), events[|events| - 1])
  }

  function Receive(c: Config, s: State, events: seq<Event>): State {
    var s1 := Add(s, events);
    if s1.total > c.pause then s1.(paused := true) else s1
  }

  function BatchSize(max: int, events: seq<Event>): int {
    if |events| <= max then |events| else max
  }

  function Taken(s: State, m: ModuleId, max: int): State
    requires m in s.buffers && max > 0
  {
    var n := BatchSize(max, s.buffers[m]);
    s.(buffers := s.buffers[m := s.buffers[m][n..]], total := s.total - n)
  }

  function Settled(c: Config, s: State): State {
    if s.total <= c.resume then s.(paused := false) else s
  }

  /** The batch of at most maxBatch events is written to the module's channel and removed from its buffer. */
  function Dispatch(c: Config, s: State, m: ModuleId): State
    requires ValidConfig(c) && m in s.buffers
  {
    Settled(c, Taken(s, m, c.maxBatch))
  }

  // ---------------------------------------------------------------- runs

  datatype Step = In(events: seq<Event>) | Out(m: ModuleId)

  /** The state, everything that came in, and what was dispatched to each module. */
  datatype History = History(s: State, received: seq<Event>, dispatched: Buffers)

  /** The node starts with one Init event per module in the buffers. */
  ghost function Begin(modules: set<ModuleId>, inits: seq<Event>): History {
    History(Add(State(EmptyBuffers(modules), 0, false), inits), inits, EmptyBuffers(modules))
  }

  /** A dispatch is only offered for a module with buffered events. */
  ghost predicate Enabled(s: State, step: Step) {
    step.Out? ==> step.m in s.buffers && s.buffers[step.m] != []
  }

  ghost function Next(c: Config, h: History, step: Step): History
    requires ValidConfig(c)
  {
    match step
    case In(events) => History(Receive(c, h.s, events), h.received + events, h.dispatched)
    case Out(m) =>
      if Enabled(h.s, step) && m in h.dispatched then
        History(Dispatch(c, h.s, m), h.received,
                h.dispatched[m := h.dispatched[m] + h.s.buffers[m][..BatchSize(c.maxBatch, h.s.buffers[m])]])
      else h
  }

  ghost function Run(c: Config, modules: set<ModuleId>, inits: seq<Event>, steps: seq<Step>): History
    requires ValidConfig(c)
  {
    if steps == [] then Begin(modules, inits)
    else Next(c, Run(c, modules, inits, steps[..|steps| - 1]), steps[|steps| - 1])
  }

  /** The events of a list that go to one module. */
  function Routed(events: seq<Event>, m: ModuleId): seq<Event> {
    if events == [] then []
    else
      var last := events[|events| - 1];
      Routed(events[..|events| - 1], m) + (if Top(last.dest) == m then [last] else [])
  }

  /** All buffered events, counted. */
  ghost function Count(b: Buffers): nat
    decreases b.Keys
  {
    if b == map[] then 0
    else
      var m :| m in b;
      |b[m]| + Count(b - {m})
  }

  lemma {:induction false} CountRemove(b: Buffers, m: ModuleId)
    requires m in b
    ensures Count(b) == |b[m]| + Count(b - {m})
    decreases b.Keys
  {
    var k :| k in b && Count(b) == |b[k]| + Count(b - {k});
    if k != m {
      CountRemove(b - {k}, m);
      CountRemove(b - {m}, k);
      assert b - {k} - {m} == b - {m} - {k};
    }
  }

  lemma CountUpdate(b: Buffers, m: ModuleId, events: seq<Event>)
    requires m in b
    ensures Count(b[m := events]) == Count(b) - |b[m]| + |events|
  {
    CountRemove(b, m);
    CountRemove(b[m := events], m);
    assert b[m := events] - {m} == b - {m};
  }

  lemma {:induction false} CountEmpty(b: Buffers)
    requires forall m | m in b :: b[m] == []
    ensures Count(b) == 0
    decreases b.Keys
  {
    if b != map[] {
      var m :| m in b;
      CountRemove(b, m);
      CountEmpty(b - {m});
    }
  }

  lemma {:induction false} RoutedConcat(a: seq<Event>, b: seq<Event>, m: ModuleId)
    ensures Routed(a + b, m) == Routed(a, m) + Routed(b, m)
    decreases |b|
  {
    hide Top;
    if b == [] {
      assert a + b == a;
    } else {
      RoutedConcat(a, b[..|b| - 1], m);
      assert (a + b)[..|a + b| - 1] == a + b[..|b| - 1];
    }
  }

  /** Adding distributes the events over the buffers, each in order, and counts them. */
  lemma {:induction false} AddMeans(s: State, events: seq<Event>)
    ensures
      var s1 := Add(s, events);
      && s1.buffers.Keys == s.buffers.Keys && s1.paused == s.paused
      && (forall m | m in s.buffers :: s1.buffers[m] == s.buffers[m] + Routed(events, m))
      && s1.total - s.total == Count(s1.buffers) - Count(s.buffers) >= 0
    decreases |events|
  {
    hide Top, Count;
    if events != [] {
      var init, e := events[..|events| - 1], events[|events| - 1];
      AddMeans(s, init);
      var s0 := Add(s, init);
      var m := Top(e.dest);
      if m in s0.buffers {
        CountUpdate(s0.buffers, m, s0.buffers[m] + [e]);
      }
    }
  }

  // ---------------------------------------------------------------- what every run keeps

  ghost predicate Inv(c: Config, modules: set<ModuleId>, h: History) {
    && h.s.buffers.Keys == modules && h.dispatched.Keys == modules
    && (forall m | m in modules :: h.dispatched[m] + h.s.buffers[m] == Routed(h.received, m))
    && h.s.total == Count(h.s.buffers)
    && (h.s.paused ==> h.s.total > c.resume)
  }

  lemma BeginKeepsInv(c: Config, modules: set<ModuleId>, inits: seq<Event>)
    ensures Inv(c, modules, Begin(modules, inits))
  {
    hide Count, Routed;
    var s := State(EmptyBuffers(modules), 0, false);
    AddMeans(s, inits);
    CountEmpty(s.buffers);
  }

  lemma ReceiveKeepsInv(c: Config, modules: set<ModuleId>, h: History, events: seq<Event>)
    requires ValidConfig(c) && Inv(c, modules, h)
    ensures Inv(c, modules, Next(c, h, In(events)))
  {
    hide Count, Routed, Add;
    AddMeans(h.s, events);
    var h1 := Next(c, h, In(events));
    forall m | m in modules ensures h1.dispatched[m] + h1.s.buffers[m] == Routed(h1.received, m) {
      RoutedConcat(h.received, events, m);
      var done, left, more := h.dispatched[m], h.s.buffers[m], Routed(events, m);
      assert done + (left + more) == done + left + more;
    }
  }

  lemma DispatchKeepsInv(c: Config, modules: set<ModuleId>, h: History, m: ModuleId)
    requires ValidConfig(c) && Inv(c, modules, h)
    ensures Inv(c, modules, Next(c, h, Out(m)))
  {
    hide Count, Routed;
    if Enabled(h.s, Out(m)) {
      var events := h.s.buffers[m];
      var n := BatchSize(c.maxBatch, events);
      CountUpdate(h.s.buffers, m, events[n..]);
      assert h.dispatched[m] + events[..n] + events[n..] == h.dispatched[m] + events;
    }
  }

  lemma {:induction false} RunKeepsInv(c: Config, modules: set<ModuleId>, inits: seq<Event>, steps: seq<Step>)
    requires ValidConfig(c)
    ensures Inv(c, modules, Run(c, modules, inits, steps))
    decreases |steps|
  {
    hide Inv, Next, Begin;
    if steps == [] {
      BeginKeepsInv(c, modules, inits);
    } else {
      var h := Run(c, modules, inits, steps[..|steps| - 1]);
      RunKeepsInv(c, modules, inits, steps[..|steps| - 1]);
      match steps[|steps| - 1]
      case In(events) => ReceiveKeepsInv(c, modules, h, events);
      case Out(m) => DispatchKeepsInv(c, modules, h, m);
    }
  }

  /** Over every schedule, what was dispatched to a module followed by what is buffered for it is exactly
      what came in for it, in order, and the event count is the number of buffered events. */
  lemma RoutingIsFifo(c: Config, modules: set<ModuleId>, inits: seq<Event>, steps: seq<Step>, m: ModuleId)
    requires ValidConfig(c) && m in modules
    ensures
      var h := Run(c, modules, inits, steps);
      && m in h.dispatched && m in h.s.buffers
      && h.dispatched[m] + h.s.buffers[m] == Routed(h.received, m)
      && h.s.total == Count(h.s.buffers)
  {
    RunKeepsInv(c, modules, inits, steps);
  }

  lemma {:induction false} SomethingBuffered(b: Buffers)
    requires Count(b) > 0
    ensures exists m | m in b :: b[m] != []
    decreases b.Keys
  {
    var m :| m in b && Count(b) == |b[m]| + Count(b - {m});
    if b[m] == [] {
      SomethingBuffered(b - {m});
      var k :| k in b - {m} && (b - {m})[k] != [];
      assert k in b && b[k] != [];
    }
  }

  /** Paused input cannot block the node: as long as it is paused, some dispatch is possible. */
  lemma PausedCanDispatch(c: Config, modules: set<ModuleId>, inits: seq<Event>, steps: seq<Step>)
    requires ValidConfig(c)
    ensures
      var h := Run(c, modules, inits, steps);
      h.s.paused ==> h.s.total > c.resume && exists m | m in h.s.buffers :: Enabled(h.s, Out(m))
  {
    RunKeepsInv(c, modules, inits, steps);
    var h := Run(c, modules, inits, steps);
    if h.s.paused {
      SomethingBuffered(h.s.buffers);
      var m :| m in h.s.buffers && h.s.buffers[m] != [];
      assert Enabled(h.s, Out(m));
    }
  }

  // ---------------------------------------------------------------- resuming

  ghost predicate OnlyDispatches(c: Config, h: History, ms: seq<ModuleId>)
    requires ValidConfig(c)
  {
    ms == [] ||
      var init := ms[..|ms| - 1];
      OnlyDispatches(c, h, init) && Enabled(Dispatched(c, h, init).s, Out(ms[|ms| - 1]))
  }

  ghost function Dispatched(c: Config, h: History, ms: seq<ModuleId>): History
    requires ValidConfig(c)
  {
    if ms == [] then h else Next(c, Dispatched(c, h, ms[..|ms| - 1]), Out(ms[|ms| - 1]))
  }

  /** Every dispatch makes progress, so input that is paused resumes after at most total - resume of them. */
  lemma {:induction false} DispatchingResumes(c: Config, modules: set<ModuleId>, h: History, ms: seq<ModuleId>)
    requires ValidConfig(c) && Inv(c, modules, h) && OnlyDispatches(c, h, ms)
    ensures
      var h1 := Dispatched(c, h, ms);
      && Inv(c, modules, h1) && h1.s.total <= h.s.total - |ms|
      && (|ms| >= h.s.total - c.resume ==> !h1.s.paused)
    decreases |ms|
  {
    hide Count, Routed;
    if ms != [] {
      var init, m := ms[..|ms| - 1], ms[|ms| - 1];
      DispatchingResumes(c, modules, h, init);
      DispatchKeepsInv(c, modules, Dispatched(c, h, init), m);
    }
  }

  // ---------------------------------------------------------------- pausing

  /** A node above the pause threshold has paused its input. */
  predicate PausedInTime(c: Config, s: State) {
    s.total > c.pause ==> s.paused
  }

  lemma {:induction false} StaysPausedInTime(c: Config, modules: set<ModuleId>, inits: seq<Event>, steps: seq<Step>)
    requires ValidConfig(c) && PausedInTime(c, Begin(modules, inits).s)
    ensures PausedInTime(c, Run(c, modules, inits, steps).s)
    decreases |steps|
  {
    hide Add, Begin;
    if steps != [] {
      StaysPausedInTime(c, modules, inits, steps[..|steps| - 1]);
      RunKeepsInv(c, modules, inits, steps[..|steps| - 1]);
      var h := Run(c, modules, inits, steps[..|steps| - 1]);
      if steps[|steps| - 1].In? {
        AddMeans(h.s, steps[|steps| - 1].events);
      }
    }
  }

  /** One Init event per module, in some order. */
  ghost predicate InitEvents(modules: set<ModuleId>, inits: seq<Event>) {
    && |inits| == |modules|
    && (forall i | 0 <= i < |inits| :: inits[i].dest in modules)
    && (forall i, j | 0 <= i < j < |inits| :: inits[i].dest != inits[j].dest)
  }

  lemma {:induction false} RoutedTotal(s: State, events: seq<Event>)
    ensures Add(s, events).total <= s.total + |events|
    ensures (forall e | e in events :: Top(e.dest) in s.buffers) ==> Add(s, events).total == s.total + |events|
    ensures Add(s, events).buffers.Keys == s.buffers.Keys
    decreases |events|
  {
    if events != [] {
      hide Top;
      RoutedTotal(s, events[..|events| - 1]);
    }
  }

  ghost predicate AlwaysPausesInTime(c: Config, modules: set<ModuleId>, inits: seq<Event>)
    requires ValidConfig(c)
  {
    forall steps: seq<Step> :: PausedInTime(c, Run(c, modules, inits, steps).s)
  }

  lemma InitsBuffered(modules: set<ModuleId>, inits: seq<Event>)
    requires InitEvents(modules, inits) && forall m | m in modules :: Top(m) == m
    ensures Begin(modules, inits).s.total == |modules| && !Begin(modules, inits).s.paused
  {
    hide Top, Add;
    var s := State(EmptyBuffers(modules), 0, false);
    RoutedTotal(s, inits);
    forall e | e in inits ensures Top(e.dest) in s.buffers {
      var i :| 0 <= i < |inits| && inits[i] == e;
    }
    AddMeans(s, inits);
  }

  /** The Init events are added without looking at the threshold. With top-level module identifiers, the
      node has paused its input whenever it is above the threshold, in all runs, exactly if there are no
      more modules than the threshold. */
  lemma PausesInTimeIff(c: Config, modules: set<ModuleId>, inits: seq<Event>)
    requires ValidConfig(c) && InitEvents(modules, inits) && forall m | m in modules :: Top(m) == m
    ensures AlwaysPausesInTime(c, modules, inits) <==> |modules| <= c.pause
  {
    hide Top, Begin;
    InitsBuffered(modules, inits);
    if |modules| <= c.pause {
      forall steps: seq<Step> ensures PausedInTime(c, Run(c, modules, inits, steps).s) {
        StaysPausedInTime(c, modules, inits, steps);
      }
    } else {
      var none: seq<Step> := [];
      assert !PausedInTime(c, Run(c, modules, inits, none).s);
    }
  }

  // ---------------------------------------------------------------- hysteresis

  ghost function TotalAfter(c: Config, modules: set<ModuleId>, inits: seq<Event>, steps: seq<Step>, k: nat): int
    requires ValidConfig(c) && k <= |steps|
  {
    Run(c, modules, inits, steps[..k]).s.total
  }

  /** Step i brought more into the buffers than the pause threshold, and ever since they have held more than the resume
      threshold. */
  ghost predicate PausedSince(c: Config, modules: set<ModuleId>, inits: seq<Event>, steps: seq<Step>, i: nat)
    requires ValidConfig(c)
  {
    && 0 < i <= |steps| && steps[i - 1].In? && TotalAfter(c, modules, inits, steps, i) > c.pause
    && forall k | i <= k <= |steps| :: TotalAfter(c, modules, inits, steps, k) > c.resume
  }

  /** What held of a beginning of the run holds of the run if the last total does not change it. */
  lemma PausedSinceLast(c: Config, modules: set<ModuleId>, inits: seq<Event>, steps: seq<Step>, i: nat)
    requires ValidConfig(c) && 0 < i < |steps|
    ensures
      PausedSince(c, modules, inits, steps, i) <==>
        PausedSince(c, modules, inits, steps[..|steps| - 1], i) && Run(c, modules, inits, steps).s.total > c.resume
  {
    hide Run;
    var init := steps[..|steps| - 1];
    assert steps[..|steps|] == steps;
    forall k: nat | k <= |init|
      ensures TotalAfter(c, modules, inits, init, k) == TotalAfter(c, modules, inits, steps, k)
    {
      assert init[..k] == steps[..k];
    }
    assert TotalAfter(c, modules, inits, steps, |steps|) == Run(c, modules, inits, steps).s.total;
    if PausedSince(c, modules, inits, init, i) && Run(c, modules, inits, steps).s.total > c.resume {
      forall k | i <= k <= |steps| ensures TotalAfter(c, modules, inits, steps, k) > c.resume {
        assert k < |steps| ==> TotalAfter(c, modules, inits, init, k) > c.resume;
      }
    }
  }

  lemma PausedNow(c: Config, modules: set<ModuleId>, inits: seq<Event>, steps: seq<Step>)
    requires ValidConfig(c) && steps != []
    ensures
      PausedSince(c, modules, inits, steps, |steps|) <==>
        steps[|steps| - 1].In? && Run(c, modules, inits, steps).s.total > c.pause
  {
    hide Run;
    assert steps[..|steps|] == steps;
  }

  /** Over every run: input is paused exactly if some step brought in more than the pause threshold and since then the
      buffers have never held the resume threshold or less. */
  lemma {:induction false} PausedIff(c: Config, modules: set<ModuleId>, inits: seq<Event>, steps: seq<Step>)
    requires ValidConfig(c)
    ensures Run(c, modules, inits, steps).s.paused <==> exists i :: PausedSince(c, modules, inits, steps, i)
    decreases |steps|
  {
    hide Add, PausedSince;
    if steps == [] {
      AddMeans(State(EmptyBuffers(modules), 0, false), inits);
      assert forall i :: !PausedSince(c, modules, inits, steps, i) by {
        NeverPaused(c, modules, inits);
      }
    } else {
      var init, last := steps[..|steps| - 1], steps[|steps| - 1];
      PausedIff(c, modules, inits, init);
      PausedNow(c, modules, inits, steps);
      forall i: nat | 0 < i < |steps|
        ensures PausedSince(c, modules, inits, steps, i) <==>
          PausedSince(c, modules, inits, init, i) && Run(c, modules, inits, steps).s.total > c.resume
      {
        PausedSinceLast(c, modules, inits, steps, i);
      }
      SinceWhen(c, modules, inits, init);
      SinceWhen(c, modules, inits, steps);
      RunKeepsInv(c, modules, inits, steps);
      var h := Run(c, modules, inits, init);
      if last.In? {
        AddMeans(h.s, last.events);
      }
    }
  }

  lemma NeverPaused(c: Config, modules: set<ModuleId>, inits: seq<Event>)
    requires ValidConfig(c)
    ensures forall i :: !PausedSince(c, modules, inits, [], i)
  {}

  lemma SinceWhen(c: Config, modules: set<ModuleId>, inits: seq<Event>, steps: seq<Step>)
    requires ValidConfig(c)
    ensures forall i: nat | PausedSince(c, modules, inits, steps, i) :: 0 < i <= |steps|
  {}

  /** Input that is paused after step i stays paused while the buffers hold more than the resume threshold. */
  lemma StaysPaused(c: Config, modules: set<ModuleId>, inits: seq<Event>, steps: seq<Step>, i: nat, j: nat)
    requires ValidConfig(c) && i <= j <= |steps| && Run(c, modules, inits, steps[..i]).s.paused
    requires forall k | i <= k <= j :: TotalAfter(c, modules, inits, steps, k) > c.resume
    ensures Run(c, modules, inits, steps[..j]).s.paused
  {
    hide Run;
    PausedIff(c, modules, inits, steps[..i]);
    var n :| PausedSince(c, modules, inits, steps[..i], n);
    forall k: nat | k <= j
      ensures TotalAfter(c, modules, inits, steps[..j], k) == TotalAfter(c, modules, inits, steps, k)
      ensures k <= i ==> TotalAfter(c, modules, inits, steps[..i], k) == TotalAfter(c, modules, inits, steps, k)
    {
      assert steps[..j][..k] == steps[..k];
      assert k <= i ==> steps[..i][..k] == steps[..k];
    }
    assert PausedSince(c, modules, inits, steps[..j], n);
    PausedIff(c, modules, inits, steps[..j]);
  }

  /** Input resumes exactly at a dispatch that takes the buffers to the resume threshold or below. */
  lemma ResumesIff(c: Config, modules: set<ModuleId>, inits: seq<Event>, steps: seq<Step>, step: Step)
    requires ValidConfig(c)
    ensures
      var s, s1 := Run(c, modules, inits, steps).s, Run(c, modules, inits, steps + [step]).s;
      s.paused ==> (!s1.paused <==> step.Out? && Enabled(s, step) && s1.total <= c.resume)
  {
    hide Count, Routed, Add;
    RunKeepsInv(c, modules, inits, steps);
    assert (steps + [step])[..|steps|] == steps;
    if step.In? {
      AddMeans(Run(c, modules, inits, steps).s, step.events);
    }
  }

  /** A dispatch hands over the front of the module's buffer: maxBatch events, or all of them if there are fewer.
      Nothing else moves. */
  lemma BatchesAreFull(c: Config, modules: set<ModuleId>, inits: seq<Event>, steps: seq<Step>, m: ModuleId)
    returns (batch: seq<Event>)
    requires ValidConfig(c) && m in modules
    ensures
      var h, h1 := Run(c, modules, inits, steps), Run(c, modules, inits, steps + [Out(m)]);
      && m in h.s.buffers && m in h.dispatched && m in h1.s.buffers
      && h.s.buffers[m] == batch + h1.s.buffers[m] && |batch| <= c.maxBatch
      && (|batch| < c.maxBatch ==> h1.s.buffers[m] == [])
      && h1.dispatched == h.dispatched[m := h.dispatched[m] + batch] && h1.received == h.received
      && h1.s.buffers == h.s.buffers[m := h1.s.buffers[m]]
  {
    hide Count, Routed, Add;
    RunKeepsInv(c, modules, inits, steps);
    assert (steps + [Out(m)])[..|steps|] == steps;
    var h := Run(c, modules, inits, steps);
    batch := h.s.buffers[m][..BatchSize(c.maxBatch, h.s.buffers[m])];
    if h.s.buffers[m] == [] {
      assert h.dispatched[m] + [] == h.dispatched[m];
    }
  }
}
