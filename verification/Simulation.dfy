/** The simulation runtime in logical time (pkg/testsim/runtime.go, process.go) as functions of its state. */
module Simulation {
  import opened Types
  import opened ActionHeap

  const TWO63 := 0x8000_0000_0000_0000

  /** A 64-bit duration, and 64-bit addition. */
  type Duration = d: int | -TWO63 <= d < TWO63

  function Wrap(x: int): int {
    (x + TWO63) % (2 * TWO63) - TWO63
  }

  /** Panics on overflow, and on any other negative result. */
  function TimeAfter(now: int, d: Duration): Option<int> {
    var t := Wrap(now + d);
    if t < 0 then None else Some(t)
  }

  /** Where the runtime is: not running, waiting until no process is active, having seen that, or about to wake the
      process of the action it has just taken. */
  datatype Phase = Idle | Waiting | Ready | Firing(process: nat)

  /** `computed` has the deadlines of processes that have called Delay and not yet queued the action: the program
      reads the time before it takes the lock of the queue. */
  datatype State = State(
    now: int, queue: seq<Entry>, actions: nat, processes: nat,
    active: set<nat>, killed: set<nat>, nrActive: int,
    computed: map<nat, int>, phase: Phase)

  const INIT := State(0, [], 0, 0, {}, {}, 0, map[], Idle)

  function Activate(s: State, p: nat): State {
    if p !in s.active && p !in s.killed then s.(active := s.active + {p}, nrActive := s.nrActive + 1) else s
  }

  function Deactivate(s: State, p: nat): State {
    if p in s.active then s.(active := s.active - {p}, nrActive := s.nrActive - 1) else s
  }

  function Spawn(s: State): State {
    Activate(s.(processes := s.processes + 1), s.processes)
  }

  /** The first part of Delay. */
  function Compute(s: State, p: nat, d: Duration): Option<State> {
    match TimeAfter(s.now, d)
    case None => None
    case Some(t) => Some(s.(computed := s.computed[p := t]))
  }

  /** The second part of Delay. */
  function Schedule(s: State, p: nat): State
    requires p in s.computed
  {
    s.(queue := Push(s.queue, Entry(s.actions, s.computed[p], p)),
       actions := s.actions + 1,
       computed := s.computed - {p})
  }

  function Pop(s: State): State
    requires s.queue != []
  {
    s.(queue := PopRest(s.queue), now := s.queue[0].deadline, phase := Firing(s.queue[0].process))
  }

  /** Closing the kill channel a second time panics. */
  function Kill(s: State, p: nat): Option<State> {
    if p in s.killed then None else Some(Deactivate(s, p).(killed := s.killed + {p}))
  }

  ghost predicate At(q: seq<Entry>, id: nat, i: nat) {
    i < |q| && q[i].id == id
  }

  /** Removes an action that is still scheduled. */
  ghost function Unschedule(s: State, id: nat): State {
    if exists i :: At(s.queue, id, i) then
      var i :| At(s.queue, id, i);
      s.(queue := Remove(s.queue, i))
    else s
  }

  lemma UnscheduleAt(s: State, id: nat, at: int)
    requires at < |s.queue| && forall i: nat :: At(s.queue, id, i) <==> i == at
    ensures Unschedule(s, id) == if at >= 0 then s.(queue := Remove(s.queue, at)) else s
  {
    if at >= 0 {
      assert At(s.queue, id, at);
    }
  }

  // ---------------------------------------------------------------- runs

  datatype Step =
    // processes
    | Spawned
    | Computed(p: nat, d: Duration)
    | Pushed(p: nat)
    | Stopped(p: nat)   // the last part of Delay, blocking on a channel, or exiting
    | Killed(p: nat)
    | Woken(p: nat)     // by a channel operation
    | Unscheduled(id: nat)
    // the runtime
    | Started
    | Quiesced
    | Popped
    | Woke
    | Returned

  /** Everything done under one lock is one step. A step that is out of order changes nothing. */
  ghost function Do(s: State, step: Step): Option<State> {
    match step
    case Spawned => Some(Spawn(s))
    case Computed(p, d) => if p < s.processes && p !in s.computed then Compute(s, p, d) else Some(s)
    case Pushed(p) => Some(if p in s.computed then Schedule(s, p) else s)
    case Stopped(p) => Some(if p in s.computed then s else Deactivate(s, p))
    case Killed(p) => if p < s.processes then Kill(s, p) else Some(s)
    case Woken(p) => Some(if p < s.processes then Activate(s, p) else s)
    case Unscheduled(id) => Some(Unschedule(s, id))
    case Started => Some(if s.phase.Idle? then s.(phase := Waiting) else s)
    case Quiesced => Some(if s.phase.Waiting? && s.nrActive == 0 then s.(phase := Ready) else s)
    case Popped => Some(if s.phase.Ready? && s.queue != [] then Pop(s) else s)
    case Woke => Some(if s.phase.Firing? then Activate(s, s.phase.process).(phase := Waiting) else s)
    case Returned => Some(if s.phase.Ready? then s.(phase := Idle) else s)
  }

  /** The step leads from s to s1. */
  ghost predicate Goes(s: State, step: Step, s1: State) {
    Do(s, step) == Some(s1)
  }

  /** A panic ends the simulation. */
  ghost function RunFrom(s: State, steps: seq<Step>): Option<State> {
    if steps == [] then Some(s)
    else
      match RunFrom(s, steps[..|steps| - 1])
      case None => None
      case Some(s1) => Do(s1, steps[|steps| - 1])
  }

  ghost function Run(steps: seq<Step>): Option<State> {
    RunFrom(INIT, steps)
  }

  /** Every action is in the queue once. */
  ghost predicate IdsBelow(q: seq<Entry>, n: nat) {
    && (forall e | e in multiset(q) :: e.id < n && multiset(q)[e] == 1)
    && (forall e, f | e in multiset(q) && f in multiset(q) && e.id == f.id :: e == f)
  }

  ghost predicate Counted(s: State) {
    && s.nrActive == |s.active| && s.active !! s.killed
    && (forall p | p in s.active :: p < s.processes) && (forall p | p in s.killed :: p < s.processes)
  }

  ghost predicate Inv(s: State) {
    && Heap(s.queue, |s.queue|) && IdsBelow(s.queue, s.actions)
    && (forall e | e in multiset(s.queue) :: 0 <= e.deadline < TWO63 && e.process < s.processes)
    && (forall p | p in s.computed :: 0 <= s.computed[p] < TWO63 && p < s.processes)
    && (s.phase.Firing? ==> s.phase.process < s.processes)
    && 0 <= s.now < TWO63
    && Counted(s)
  }

  lemma CountedActivate(s: State, p: nat)
    requires Counted(s) && p < s.processes
    ensures Counted(Activate(s, p))
  {}

  lemma CountedDeactivate(s: State, p: nat)
    requires Counted(s)
    ensures Counted(Deactivate(s, p))
  {}

  lemma CountedKill(s: State, p: nat)
    requires Counted(s) && p < s.processes && Kill(s, p).Some?
    ensures Counted(Kill(s, p).value)
  {}

  lemma PushIds(q: seq<Entry>, e: Entry, n: nat)
    requires Heap(q, |q|) && IdsBelow(q, n) && e.id == n
    ensures IdsBelow(Push(q, e), n + 1)
  {
    PushKeeps(q, e);
  }

  lemma LessIds(q: seq<Entry>, r: seq<Entry>, e: Entry, n: nat)
    requires IdsBelow(q, n) && multiset(q) == multiset(r) + multiset{e}
    ensures IdsBelow(r, n) && e !in multiset(r) && forall f | f in multiset(q) :: f in multiset(r) || f == e
  {
    assert multiset(q)[e] == multiset(r)[e] + 1;
    forall f | f in multiset(r) ensures f.id < n && multiset(r)[f] == 1 {
      assert f in multiset(q);
    }
  }

  lemma StillCounted(s: State, s1: State)
    requires Counted(s)
    requires s1 == s.(queue := s1.queue, actions := s1.actions, now := s1.now, computed := s1.computed,
                      phase := s1.phase)
    ensures Counted(s1)
  {}

  lemma ComputeKeepsInv(s: State, p: nat, d: Duration)
    requires Inv(s) && p < s.processes && Compute(s, p, d).Some?
    ensures Inv(Compute(s, p, d).value)
  {
    hide Wrap, Heap, IdsBelow, Counted;
    TimeAfterIsExact(s.now, d);
    StillCounted(s, Compute(s, p, d).value);
  }

  lemma ScheduleKeepsInv(s: State, p: nat)
    requires Inv(s) && p in s.computed
    ensures Inv(Schedule(s, p))
  {
    hide Push, Heap, Counted;
    var e := Entry(s.actions, s.computed[p], p);
    PushKeeps(s.queue, e);
    PushIds(s.queue, e, s.actions);
    hide IdsBelow;
    StillCounted(s, Schedule(s, p));
  }

  lemma PopKeepsInv(s: State)
    requires Inv(s) && s.queue != []
    ensures Inv(Pop(s))
  {
    hide PopRest;
    var e := s.queue[0];
    PopKeeps(s.queue);
    LessIds(s.queue, PopRest(s.queue), e, s.actions);
    assert e in multiset(s.queue);
    StillCounted(s, Pop(s));
  }

  /** Unscheduling takes out the one action with the given number, or does nothing. */
  lemma UnscheduleTakesOut(s: State, id: nat)
    requires Inv(s)
    ensures Heap(Unschedule(s, id).queue, |Unschedule(s, id).queue|)
    ensures Unschedule(s, id) == s.(queue := Unschedule(s, id).queue)
    ensures forall e :: e in multiset(Unschedule(s, id).queue) <==> e in multiset(s.queue) && e.id != id
    ensures IdsBelow(Unschedule(s, id).queue, s.actions)
  {
    hide Remove;
    if exists i :: At(s.queue, id, i) {
      var i: nat :| At(s.queue, id, i) && Unschedule(s, id) == s.(queue := Remove(s.queue, i));
      var e := s.queue[i];
      RemoveKeeps(s.queue, i);
      LessIds(s.queue, Remove(s.queue, i), e, s.actions);
      assert e in multiset(s.queue);
    } else {
      forall e | e in multiset(s.queue) ensures e.id != id {
        var i :| 0 <= i < |s.queue| && s.queue[i] == e;
        assert !At(s.queue, id, i);
      }
    }
  }

  lemma OthersKeepInv(s: State, s1: State)
    requires Inv(s) && Counted(s1) && s1.processes >= s.processes && (s1.phase.Firing? ==> s1.phase == s.phase)
    requires s1 == s.(processes := s1.processes, active := s1.active, killed := s1.killed, nrActive := s1.nrActive,
                      phase := s1.phase)
    ensures Inv(s1)
  {
    hide Heap, IdsBelow, Counted;
  }

  lemma UnscheduleKeepsInv(s: State, id: nat)
    requires Inv(s)
    ensures Inv(Unschedule(s, id))
  {
    hide Heap, IdsBelow, Counted, Unschedule;
    UnscheduleTakesOut(s, id);
    StillCounted(s, Unschedule(s, id));
  }

  lemma WokeKeepsInv(s: State)
    requires Inv(s) && s.phase.Firing?
    ensures Inv(Activate(s, s.phase.process).(phase := Waiting))
  {
    hide Heap, IdsBelow, Counted;
    var s1 := Activate(s, s.phase.process);
    CountedActivate(s, s.phase.process);
    StillCounted(s1, s1.(phase := Waiting));
    OthersKeepInv(s, s1.(phase := Waiting));
  }

  lemma InvCounted(s: State)
    requires Inv(s)
    ensures Counted(s)
  {}

  lemma ActivateKeepsInv(s: State, p: nat)
    requires Inv(s) && p < s.processes
    ensures Inv(Activate(s, p))
  {
    InvCounted(s);
    hide Inv, Counted;
    CountedActivate(s, p);
    OthersKeepInv(s, Activate(s, p));
  }

  lemma DeactivateKeepsInv(s: State, p: nat)
    requires Inv(s)
    ensures Inv(Deactivate(s, p))
  {
    InvCounted(s);
    hide Inv, Counted;
    CountedDeactivate(s, p);
    OthersKeepInv(s, Deactivate(s, p));
  }

  lemma KillKeepsInv(s: State, p: nat)
    requires Inv(s) && p < s.processes && Kill(s, p).Some?
    ensures Inv(Kill(s, p).value)
  {
    InvCounted(s);
    hide Inv, Counted;
    CountedKill(s, p);
    OthersKeepInv(s, Kill(s, p).value);
  }

  lemma OneMoreKeepsInv(s: State)
    requires Inv(s)
    ensures Inv(s.(processes := s.processes + 1))
  {
    InvCounted(s);
    hide Inv;
    OthersKeepInv(s, s.(processes := s.processes + 1));
  }

  lemma RootBounds(s: State)
    requires Inv(s) && s.queue != []
    ensures s.queue[0].process < s.processes
  {
    assert s.queue[0] in multiset(s.queue);
  }

  lemma DoKeepsInv(s: State, step: Step)
    requires Inv(s) && Do(s, step).Some?
    ensures Inv(Do(s, step).value)
  {
    hide Inv, Compute, Schedule, Pop, Unschedule, Counted;
    InvCounted(s);
    var s1 := Do(s, step).value;
    match step
    case Spawned =>
      OneMoreKeepsInv(s);
      ActivateKeepsInv(s.(processes := s.processes + 1), s.processes);
    case Computed(p, d) =>
      if p < s.processes && p !in s.computed {
        ComputeKeepsInv(s, p, d);
      }
    case Pushed(p) =>
      if p in s.computed {
        ScheduleKeepsInv(s, p);
      }
    case Killed(p) =>
      if p < s.processes {
        KillKeepsInv(s, p);
      }
    case Woken(p) =>
      if p < s.processes {
        ActivateKeepsInv(s, p);
      }
    case Stopped(p) => DeactivateKeepsInv(s, p);
    case Unscheduled(id) => UnscheduleKeepsInv(s, id);
    case Popped =>
      if s.phase.Ready? && s.queue != [] {
        PopKeepsInv(s);
      }
    case Woke =>
      if s.phase.Firing? {
        WokeKeepsInv(s);
      }
    case _ =>
      StillCounted(s, s1);
      OthersKeepInv(s, s1);
  }

  lemma {:induction false} RunFromKeepsInv(s: State, steps: seq<Step>)
    requires Inv(s) && RunFrom(s, steps).Some?
    ensures Inv(RunFrom(s, steps).value)
    decreases |steps|
  {
    hide Inv, Do;
    if steps != [] {
      RunFromKeepsInv(s, steps[..|steps| - 1]);
      DoKeepsInv(RunFrom(s, steps[..|steps| - 1]).value, steps[|steps| - 1]);
    }
  }

  /** In every run the queue is a heap with every action in it once, and the number of active processes is
      exact, with no killed process active. */
  lemma RunKeepsInv(steps: seq<Step>)
    requires Run(steps).Some?
    ensures Inv(Run(steps).value)
  {
    InitInv();
    hide Inv;
    RunFromKeepsInv(INIT, steps);
  }

  lemma InitInv()
    ensures Inv(INIT)
  {}

  // ---------------------------------------------------------------- time

  /** Nothing is scheduled, or about to be scheduled, in the past. */
  ghost predicate Settled(s: State) {
    && (forall e | e in multiset(s.queue) :: s.now <= e.deadline)
    && (forall p | p in s.computed :: s.now <= s.computed[p])
  }

  lemma TimeAfterIsExact(now: int, d: Duration)
    requires 0 <= now < TWO63
    ensures TimeAfter(now, d) == if 0 <= now + d < TWO63 then Some(now + d) else None
  {
    if now + d >= TWO63 {
      assert (now + d + TWO63) % (2 * TWO63) == now + d - TWO63;
    }
  }

  /** Calling Delay keeps everything in the future exactly if the duration is not negative. */
  lemma ComputeSettledIff(s: State, p: nat, d: Duration)
    requires Inv(s) && Settled(s) && p < s.processes && p !in s.computed && Compute(s, p, d).Some?
    ensures Settled(Compute(s, p, d).value) <==> d >= 0
  {
    hide Wrap;
    TimeAfterIsExact(s.now, d);
    assert p in Compute(s, p, d).value.computed;
  }

  lemma ScheduleSettled(s: State, p: nat)
    requires Inv(s) && Settled(s) && p in s.computed
    ensures Settled(Schedule(s, p))
  {
    hide Push;
    PushKeeps(s.queue, Entry(s.actions, s.computed[p], p));
  }

  /** Taking the next action keeps everything in the future exactly if no process is about to schedule something
      earlier. Time itself goes back exactly if the action was in the past already. */
  lemma PopSettledIff(s: State)
    requires Inv(s) && s.queue != []
    ensures Settled(Pop(s)) <==> forall p | p in s.computed :: s.queue[0].deadline <= s.computed[p]
    ensures Pop(s).now < s.now <==> exists e | e in multiset(s.queue) :: e.deadline < s.now
  {
    hide PopRest;
    PopKeeps(s.queue);
    assert s.queue[0] in multiset(s.queue);
    forall e | e in multiset(s.queue) ensures s.queue[0].deadline <= e.deadline {
      assert e in s.queue;
    }
    forall e | e in multiset(PopRest(s.queue)) ensures s.queue[0].deadline <= e.deadline {
      assert e in multiset(s.queue);
    }
  }

  /** What the runtime relies on: Delay is called with a non-negative duration by an active process that is not
      killed before it has queued its action, and while the runtime is between seeing that no process is active and
      waking the next one, nobody else wakes or creates a process. */
  ghost predicate Orderly(s: State, step: Step) {
    match step
    case Computed(p, d) => p in s.active && d >= 0
    case Killed(p) => p !in s.computed
    case Spawned => s.phase.Idle? || s.phase.Waiting?
    case Woken(_) => s.phase.Idle? || s.phase.Waiting?
    case _ => true
  }

  ghost predicate OrderlyRun(steps: seq<Step>) {
    if steps == [] then true
    else
      var before := steps[..|steps| - 1];
      OrderlyRun(before) && (Run(before).Some? ==> Orderly(Run(before).value, steps[|steps| - 1]))
  }

  /** Processes in the middle of Delay are active, and none is while the runtime takes a step. */
  ghost predicate Quiet(s: State) {
    && (forall p | p in s.computed :: p in s.active)
    && (s.phase.Ready? || s.phase.Firing? ==> s.active == {})
  }

  lemma DoQuiet(s: State, step: Step)
    requires Inv(s) && Quiet(s) && Orderly(s, step) && Do(s, step).Some?
    ensures Quiet(Do(s, step).value)
  {
    hide Heap, IdsBelow, Push, PopRest, Unschedule, TimeAfter;
    if step.Unscheduled? {
      UnscheduleTakesOut(s, step.id);
    }
  }

  lemma PopSettled(s: State)
    requires Inv(s) && Quiet(s) && Settled(s) && s.phase.Ready? && s.queue != []
    ensures Settled(Pop(s)) && s.now <= Pop(s).now
  {
    hide PopRest;
    PopSettledIff(s);
    assert s.queue[0] in multiset(s.queue);
  }

  lemma UnscheduleSettled(s: State, id: nat)
    requires Inv(s) && Settled(s)
    ensures Settled(Unschedule(s, id)) && Unschedule(s, id).now == s.now
  {
    hide Unschedule;
    UnscheduleTakesOut(s, id);
  }

  lemma SameSettled(s: State, s1: State)
    requires Settled(s) && s1.queue == s.queue && s1.computed == s.computed && s1.now == s.now
    ensures Settled(s1)
  {}

  lemma DoSettled(s: State, step: Step)
    requires Inv(s) && Quiet(s) && Settled(s) && Orderly(s, step) && Do(s, step).Some?
    ensures Settled(Do(s, step).value) && s.now <= Do(s, step).value.now
  {
    hide Compute, Schedule, Pop, Unschedule, Inv, Quiet, Settled;
    match step
    case Computed(p, d) =>
      if p < s.processes && p !in s.computed {
        ComputeSettledIff(s, p, d);
        ComputeKeepsTime(s, p, d);
      }
    case Pushed(p) =>
      if p in s.computed {
        ScheduleSettled(s, p);
        ScheduleKeepsTime(s, p);
      }
    case Popped =>
      if s.phase.Ready? && s.queue != [] {
        PopSettled(s);
      }
    case Unscheduled(id) => UnscheduleSettled(s, id);
    case _ => SameSettled(s, Do(s, step).value);
  }

  lemma ComputeKeepsTime(s: State, p: nat, d: Duration)
    requires Compute(s, p, d).Some?
    ensures Compute(s, p, d).value.now == s.now
  {}

  lemma ScheduleKeepsTime(s: State, p: nat)
    requires p in s.computed
    ensures Schedule(s, p).now == s.now
  {}

  /** In every orderly run simulated time never decreases, and no scheduled action is passed over. */
  lemma {:induction false} TimeNeverDecreases(steps: seq<Step>, n: nat)
    requires Run(steps).Some? && OrderlyRun(steps) && n <= |steps|
    ensures Settled(Run(steps).value) && Quiet(Run(steps).value)
    ensures Run(steps[..n]).Some? && Run(steps[..n]).value.now <= Run(steps).value.now
    decreases |steps|
  {
    if steps != [] {
      hide Inv, Do, Settled, Quiet, Orderly;
      var init := steps[..|steps| - 1];
      var s := Run(init).value;
      RunKeepsInv(init);
      TimeNeverDecreases(init, if n < |steps| then n else 0);
      DoSettled(s, steps[|steps| - 1]);
      DoQuiet(s, steps[|steps| - 1]);
      if n < |steps| {
        assert init[..n] == steps[..n];
      } else {
        assert steps[..n] == steps;
      }
    } else {
      assert steps[..n] == steps;
    }
  }

  // ---------------------------------------------------------------- disorder

  lemma DoNext(s: State, steps: seq<Step>, step: Step)
    ensures RunFrom(s, steps + [step]) == if RunFrom(s, steps).None? then None else Do(RunFrom(s, steps).value, step)
  {
    assert (steps + [step])[..|steps|] == steps;
  }

  lemma RunOnce(s: State, steps: seq<Step>, step: Step, s1: State, s2: State)
    requires RunFrom(s, steps) == Some(s1) && Goes(s1, step, s2)
    ensures RunFrom(s, steps + [step]) == Some(s2)
  {
    hide Do;
    DoNext(s, steps, step);
  }

  /** The one process that is active is killed between the two parts of Delay, so that nothing keeps the runtime from
      taking the next action before the process queues its own. */
  ghost function KilledInDelay(p: nat, d: Duration): seq<Step> {
    [] + [Computed(p, d)] + [Killed(p)] + [Quiesced] + [Popped] + [Pushed(p)]
  }

  /** The runtime wakes the process q, which stops again, and takes the next action. */
  ghost function WakeAndPop(q: nat): seq<Step> {
    [] + [Woke] + [Stopped(q)] + [Quiesced] + [Popped]
  }

  ghost predicate OnlyActive(s: State, p: nat) {
    Inv(s) && Settled(s) && s.phase.Waiting? && s.active == {p} && s.computed == map[]
  }

  lemma CountedAlone(s: State, p: nat)
    requires OnlyActive(s, p)
    ensures p !in s.killed && s.nrActive == 1 && p < s.processes && 0 <= s.now < TWO63
  {
    hide Heap, IdsBelow;
    assert p in s.active;
  }

  lemma KilledInDelayGoes(s: State, p: nat, d: Duration) returns (s1: State, s2: State, s3: State)
    requires OnlyActive(s, p) && d >= 0 && s.now + d < TWO63
    ensures Goes(s, Computed(p, d), s1) && Goes(s1, Killed(p), s2) && Goes(s2, Quiesced, s3)
    ensures s3 == s.(computed := map[p := s.now + d], active := {}, nrActive := 0, killed := s.killed + {p},
                     phase := Ready)
  {
    CountedAlone(s, p);
    TimeAfterIsExact(s.now, d);
    hide TimeAfter, Inv, Settled;
    s1 := s.(computed := map[p := s.now + d]);
    assert s.computed[p := s.now + d] == s1.computed;
    s2 := s1.(active := {}, nrActive := 0, killed := s.killed + {p});
    assert s.active - {p} == {};
    s3 := s2.(phase := Ready);
  }

  lemma PopThenPush(s: State, p: nat, t: int) returns (s1: State, s2: State)
    requires s.queue != [] && s.phase.Ready? && s.computed == map[p := t]
    ensures Goes(s, Popped, s1) && Goes(s1, Pushed(p), s2)
    ensures s2 == s1.(queue := Push(PopRest(s.queue), Entry(s.actions, t, p)), actions := s.actions + 1,
                      computed := map[])
    ensures s1 == Pop(s)
  {
    hide Push, PopRest;
    s1 := Pop(s);
    assert s1.computed - {p} == map[];
    s2 := Schedule(s1, p);
  }

  lemma KilledInDelayLeaves(s: State, p: nat, d: Duration)
    requires OnlyActive(s, p) && s.queue != [] && d >= 0 && s.now + d < TWO63
    ensures
      var end := RunFrom(s, KilledInDelay(p, d));
      && end.Some? && end.value.now == s.queue[0].deadline && end.value.phase == Firing(s.queue[0].process)
      && end.value.active == {} && end.value.nrActive == 0 && end.value.computed == map[]
      && end.value.queue == Push(PopRest(s.queue), Entry(s.actions, s.now + d, p))
  {
    hide Push, PopRest, OnlyActive, RunFrom, Goes;
    var s1, s2, s3 := KilledInDelayGoes(s, p, d);
    var s4, s5 := PopThenPush(s3, p, s.now + d);
    RunNothing(s);
    RunOnce(s, [], Computed(p, d), s, s1);
    RunOnce(s, [] + [Computed(p, d)], Killed(p), s1, s2);
    RunOnce(s, [] + [Computed(p, d)] + [Killed(p)], Quiesced, s2, s3);
    RunOnce(s, [] + [Computed(p, d)] + [Killed(p)] + [Quiesced], Popped, s3, s4);
    RunOnce(s, [] + [Computed(p, d)] + [Killed(p)] + [Quiesced] + [Popped], Pushed(p), s4, s5);
  }

  lemma RunNothing(s: State)
    ensures RunFrom(s, []) == Some(s)
  {}

  lemma WakeAndPopLeaves(s: State, q: nat)
    requires s.phase == Firing(q) && s.active == {} && s.nrActive == 0 && s.computed == map[] && s.queue != []
    ensures
      var end := RunFrom(s, WakeAndPop(q));
      end.Some? && end.value.now == s.queue[0].deadline
  {
    hide PopRest, RunFrom;
    assert RunFrom(s, []) == Some(s) by {
      RunNothing(s);
    }
    DoNext(s, [], Woke);
    DoNext(s, [] + [Woke], Stopped(q));
    DoNext(s, [] + [Woke] + [Stopped(q)], Quiesced);
    DoNext(s, [] + [Woke] + [Stopped(q)] + [Quiesced], Popped);
  }

  lemma LateIsFirstIff(q: seq<Entry>, e: Entry)
    requires q != [] && Heap(q, |q|)
    ensures
      var q1 := Push(PopRest(q), e);
      q1 != [] && (q1[0].deadline < q[0].deadline <==> e.deadline < q[0].deadline)
  {
    hide PopRest, Push;
    PopKeeps(q);
    PushKeeps(PopRest(q), e);
    var q1 := Push(PopRest(q), e);
    forall f | f in multiset(q1) ensures f == e || q[0].deadline <= f.deadline {
      if f != e {
        assert f in multiset(PopRest(q));
        assert f in multiset(q);
        assert f in q;
      }
    }
    assert q1[0] in multiset(q1);
    assert e in multiset(q1);
    var k :| 0 <= k < |q1| && q1[k] == e;
    RootIsLeast(q1, k);
  }

  /** Without any negative delay, a process that is killed in Delay turns time back in the step after next exactly if
      its delay ends before the action that the runtime takes meanwhile. */
  lemma KilledInDelayTurnsBackIff(s: State, p: nat, d: Duration)
    requires OnlyActive(s, p) && s.queue != [] && d >= 0 && s.now + d < TWO63
    ensures
      var mid := RunFrom(s, KilledInDelay(p, d));
      && mid.Some?
      && var end := RunFrom(mid.value, WakeAndPop(s.queue[0].process));
         && end.Some? && s.now <= mid.value.now
         && (end.value.now < mid.value.now <==> s.now + d < s.queue[0].deadline)
  {
    hide Push, PopRest, KilledInDelay, WakeAndPop, RunFrom;
    KilledInDelayLeaves(s, p, d);
    LateIsFirstIff(s.queue, Entry(s.actions, s.now + d, p));
    WakeAndPopLeaves(RunFrom(s, KilledInDelay(p, d)).value, s.queue[0].process);
    assert s.queue[0] in multiset(s.queue);
  }

  ghost predicate NoNegativeDelay(steps: seq<Step>) {
    forall i | 0 <= i < |steps| && steps[i].Computed? :: steps[i].d >= 0
  }

  /** This situation arises: one process sleeps for a while, another one is running, and the runtime waits for it. */
  lemma OneSleepsOneRuns() returns (steps: seq<Step>, s: State)
    ensures Run(steps) == Some(s) && OnlyActive(s, 0) && s.queue == [Entry(0, 5, 1)] && s.now == 0
    ensures NoNegativeDelay(steps)
  {
    var e := Entry(0, 5, 1);
    steps := [] + [Spawned] + [Spawned] + [Computed(1, 5)] + [Pushed(1)] + [Stopped(1)] + [Started];
    s := State(0, [e], 1, 2, {0}, {}, 1, map[], Waiting);
    TimeAfterIsExact(0, 5);
    assert Push([], e) == [e];
    hide Push, TimeAfter, RunFrom;
    var s1 := State(0, [], 0, 1, {0}, {}, 1, map[], Idle);
    assert INIT.active + {0} == {0} && s1.active + {1} == {0, 1};
    assert Goes(INIT, Spawned, s1);
    var s2 := s1.(processes := 2, active := {0, 1}, nrActive := 2);
    assert Goes(s1, Spawned, s2);
    var s3 := s2.(computed := map[1 := 5]);
    assert Goes(s2, Computed(1, 5), s3);
    var s4 := s2.(queue := [e], actions := 1);
    assert map[1 := 5] - {1} == map[];
    assert Goes(s3, Pushed(1), s4);
    var s5 := s4.(active := {0}, nrActive := 1);
    assert s4.active - {1} == {0};
    assert Goes(s4, Stopped(1), s5) && Goes(s5, Started, s);
    hide Goes;
    RunNothing(INIT);
    RunOnce(INIT, [], Spawned, INIT, s1);
    RunOnce(INIT, [] + [Spawned], Spawned, s1, s2);
    RunOnce(INIT, [] + [Spawned] + [Spawned], Computed(1, 5), s2, s3);
    RunOnce(INIT, [] + [Spawned] + [Spawned] + [Computed(1, 5)], Pushed(1), s3, s4);
    RunOnce(INIT, [] + [Spawned] + [Spawned] + [Computed(1, 5)] + [Pushed(1)], Stopped(1), s4, s5);
    RunOnce(INIT, [] + [Spawned] + [Spawned] + [Computed(1, 5)] + [Pushed(1)] + [Stopped(1)], Started, s5, s);
    RunKeepsInv(steps);
  }

  lemma {:induction false} RunConcat(s: State, a: seq<Step>, b: seq<Step>)
    requires RunFrom(s, a).Some?
    ensures RunFrom(s, a + b) == RunFrom(RunFrom(s, a).value, b)
    decreases |b|
  {
    hide Do;
    if b == [] {
      assert a + b == a;
    } else {
      RunConcat(s, a, b[..|b| - 1]);
      assert (a + b)[..|a + b| - 1] == a + b[..|b| - 1];
    }
  }

  /** So there is a run without negative delays in which time goes back. */
  lemma KilledInDelayTurnsBack() returns (steps: seq<Step>, more: seq<Step>)
    ensures NoNegativeDelay(steps + more) && Run(steps).Some? && Run(steps + more).Some?
    ensures Run(steps + more).value.now < Run(steps).value.now
  {
    var before, s := OneSleepsOneRuns();
    KilledInDelayTurnsBackIff(s, 0, 0);
    steps, more := before + KilledInDelay(0, 0), WakeAndPop(1);
    assert NoNegativeDelay(steps + more);
    hide KilledInDelay, WakeAndPop, RunFrom, NoNegativeDelay, OnlyActive;
    RunConcat(INIT, before, KilledInDelay(0, 0));
    RunConcat(INIT, steps, more);
  }

  /** A negative delay turns time back: with nothing else scheduled, the next action goes back by its length. */
  lemma NegativeDelayTurnsBack(s: State, p: nat, d: Duration)
    requires OnlyActive(s, p) && s.queue == [] && d < 0 <= s.now + d
    ensures
      var end := RunFrom(s, [] + [Computed(p, d)] + [Pushed(p)] + [Stopped(p)] + [Quiesced] + [Popped]);
      end.Some? && end.value.now == s.now + d < s.now
  {
    hide OnlyActive, RunFrom, Goes;
    var s1, s2, s3, s4, s5 := NegativeDelayGoes(s, p, d);
    RunNothing(s);
    RunOnce(s, [], Computed(p, d), s, s1);
    RunOnce(s, [] + [Computed(p, d)], Pushed(p), s1, s2);
    RunOnce(s, [] + [Computed(p, d)] + [Pushed(p)], Stopped(p), s2, s3);
    RunOnce(s, [] + [Computed(p, d)] + [Pushed(p)] + [Stopped(p)], Quiesced, s3, s4);
    RunOnce(s, [] + [Computed(p, d)] + [Pushed(p)] + [Stopped(p)] + [Quiesced], Popped, s4, s5);
  }

  lemma NegativeDelayGoes(s: State, p: nat, d: Duration)
    returns (s1: State, s2: State, s3: State, s4: State, s5: State)
    requires OnlyActive(s, p) && s.queue == [] && d < 0 <= s.now + d
    ensures Goes(s, Computed(p, d), s1) && Goes(s1, Pushed(p), s2) && Goes(s2, Stopped(p), s3)
    ensures Goes(s3, Quiesced, s4) && Goes(s4, Popped, s5) && s5.now == s.now + d
  {
    CountedAlone(s, p);
    TimeAfterIsExact(s.now, d);
    var e := Entry(s.actions, s.now + d, p);
    assert Push([], e) == [e];
    hide Push, PopRest, TimeAfter, Inv, Settled;
    s1 := s.(computed := map[p := s.now + d]);
    assert s.computed[p := s.now + d] == s1.computed && s1.computed - {p} == map[];
    s2 := s.(queue := [e], actions := s.actions + 1);
    s3 := s2.(active := {}, nrActive := 0);
    assert s.active - {p} == {};
    s4 := s3.(phase := Ready);
    s5 := Pop(s4);
  }
}
